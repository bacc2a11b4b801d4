/** The run loop of ProcessRunner::run (src/process/process_runner.cpp:663-947). Everything
    the system answers is an input; times are nanoseconds on the steady clock. */
module ProcessRunner {
  import opened Results

  datatype Service = Service(startupDelay: nat, readyTcp: bool, readyTimeout: nat, shutdownGrace: nat)

  datatype Options = Options(timeout: Option<nat>, terminationGrace: nat, requirePerf: bool, service: Option<Service>)

  // ----- what the system answers

  datatype Status = ExitStatus(code: nat) | KilledBy(signal: nat) | OddStatus

  datatype Wait = StillRunning | WaitInterrupted | WaitFails | Ended(status: Status)

  datatype CollectorInput = CollectorInput(countersFail: bool, samplerFails: bool)

  /** One iteration's answers: wait4, the clock, the readiness probe, starting and stopping
      collectors, spawning and waiting for the workload, the signal handler's variable, and
      whether signalling a process group fails. */
  datatype Input = Input(
    wait: Wait,
    now: int,
    tcpReady: bool,
    start: CollectorInput,
    spawnFails: bool,
    workloadWait: Wait,
    stop: CollectorInput,
    receivedSignal: nat,
    termFails: bool,
    stopSignalFails: bool,
    workloadSignalFails: bool)

  /** The answers after the loop. */
  datatype FinishInput = FinishInput(
    stop: CollectorInput,
    childError: bool,
    readings: CollectorInput,
    metricsFail: bool,
    receivedSignal: nat)

  // ----- what the run does

  datatype Process = Target | Workload

  datatype Signal = Term | Kill | Received(number: nat)

  /** One thing the run did. Sent is a signal of the loop to a process group; Reaped is a wait of
      the loop that found the process ended. GroupKilled, PidKilled and Waited are what the guards
      of the two processes do: SIGKILL to the group, SIGKILL to the process, and a wait for the
      process. Dropped is the destructor of a collector that is still held when the run ends: it
      stops what still runs and closes it. A collector that fails is dropped on the spot, when it
      has already stopped; that is not logged. */
  datatype Action =
    | Sent(to: Process, signal: Signal, at: int)
    | StartedCounters
    | StartedSampler
    | StoppedCounters
    | StoppedSampler
    | DroppedCounters
    | DroppedSampler
    | StartedWorkload
    | Deadline(until: int)
    | Reaped(process: Process, status: Status)
    | GroupKilled(process: Process)
    | PidKilled(process: Process)
    | Waited(process: Process)

  datatype Lifecycle =
    | ReadinessTimedOut
    | WorkloadExited(code: nat)
    | WorkloadKilled(signal: nat)
    | WorkloadEndedOddly
    | ServiceDiedDuringWorkload
    | ServiceDiedBeforeWorkload

  datatype Error =
    | WaitError
    | CollectorError
    | SpawnError
    | SignalError
    | ChildError
    | LifecycleError(failure: Lifecycle)
    | MetricsError
    | UnsupportedStatus

  datatype Reason = Exited | Signaled | TimedOut | Interrupted

  datatype Outcome = Outcome(reason: Reason, exitCode: nat, signal: nat) {
    predicate Succeeded() {
      reason == Exited && exitCode == 0
    }
  }

  /** The variables of the loop, and what has been done so far. No deadline stands for the
      largest time point. */
  datatype Loop = Loop(
    stopping: bool,
    timedOut: bool,
    interrupted: bool,
    sentKill: bool,
    graceDeadline: Option<int>,
    workload: bool,
    workloadCompleted: bool,
    managedStop: bool,
    failure: Option<Lifecycle>,
    counters: bool,
    sampler: bool,
    collectorsStarted: bool,
    collectorsStopped: bool,
    log: seq<Action>)

  datatype StepResult =
    | Continue(state: Loop)
    | Left(state: Loop, status: Status)
    | Throw(state: Loop, error: Error)

  function Did(s: Loop, a: Action): Loop {
    s.(log := s.log + [a])
  }

  /** The target has until then. */
  function Grant(s: Loop, until: int): Loop {
    Did(s, Deadline(until)).(graceDeadline := Some(until))
  }

  /** ChildGuard::release (lines 136-140). */
  function Release(s: Loop, process: Process): Loop {
    Did(s, GroupKilled(process))
  }

  /** The destructor of a guard that still holds its process (lines 125-133). */
  function Destroy(s: Loop, process: Process): Loop {
    Did(Did(Did(s, GroupKilled(process)), PidKilled(process)), Waited(process))
  }

  // ----- collectors

  function StartCounters(s: Loop, i: CollectorInput): StepResult {
    if !s.counters then Continue(s)
    else if i.countersFail then Throw(Did(s, StartedCounters), CollectorError)
    else Continue(Did(s, StartedCounters))
  }

  function StartSampler(o: Options, s: Loop, i: CollectorInput): StepResult {
    if !s.sampler then Continue(s)
    else if !i.samplerFails then Continue(Did(s, StartedSampler))
    else if o.requirePerf then Throw(Did(s, StartedSampler).(sampler := false), CollectorError)
    else Continue(Did(s, StartedSampler).(sampler := false))
  }

  function StartCollectors(o: Options, s: Loop, i: CollectorInput): StepResult {
    var a := StartCounters(s, i);
    if a.Throw? then a
    else
      var b := StartSampler(o, a.state, i);
      if b.Throw? then b else Continue(b.state.(collectorsStarted := true))
  }

  function StopCounters(o: Options, s: Loop, i: CollectorInput): StepResult {
    if !s.counters then Continue(s)
    else if !i.countersFail then Continue(Did(s, StoppedCounters))
    else if o.requirePerf then Throw(Did(s, StoppedCounters).(counters := false), CollectorError)
    else Continue(Did(s, StoppedCounters).(counters := false))
  }

  function StopSampler(o: Options, s: Loop, i: CollectorInput): StepResult {
    if !s.sampler then Continue(s)
    else if !i.samplerFails then Continue(Did(s, StoppedSampler))
    else if o.requirePerf then Throw(Did(s, StoppedSampler).(sampler := false), CollectorError)
    else Continue(Did(s, StoppedSampler).(sampler := false))
  }

  function StopCollectors(o: Options, s: Loop, i: CollectorInput): StepResult {
    if !s.collectorsStarted || s.collectorsStopped then Continue(s)
    else
      var a := StopCounters(o, s, i);
      if a.Throw? then a
      else
        var b := StopSampler(o, a.state, i);
        if b.Throw? then b else Continue(b.state.(collectorsStopped := true))
  }

  /** The destructors of the collectors still held, the younger first. */
  function DropCollectors(s: Loop): Loop {
    var a := if s.sampler then Did(s, DroppedSampler) else s;
    if s.counters then Did(a, DroppedCounters) else a
  }

  // ----- one iteration

  /** Begins stopping: SIGTERM to the target and a deadline after it. */
  function Terminate(s: Loop, i: Input, grace: nat): StepResult {
    var a := s.(stopping := true);
    if i.termFails then Throw(a, SignalError)
    else Continue(Grant(Did(a, Sent(Target, Term, i.now)), i.now + grace))
  }

  function BeginWorkload(o: Options, s: Loop, i: Input): StepResult {
    var a := StartCollectors(o, s, i.start);
    if a.Throw? then a
    else if i.spawnFails then Throw(a.state, SpawnError)
    else Continue(Did(a.state, StartedWorkload).(workload := true))
  }

  function AbandonService(s: Loop, i: Input, grace: nat): StepResult {
    Terminate(s.(failure := Some(ReadinessTimedOut)), i, grace)
  }

  /** Lines 760-778: waiting for the service to be ready and starting the workload. */
  function ServicePhase(o: Options, startedAt: int, s: Loop, i: Input): StepResult {
    if o.service.None? || s.workload || s.workloadCompleted || s.failure.Some? || s.stopping then Continue(s)
    else
      var service := o.service.value;
      if i.now - startedAt >= service.startupDelay && (!service.readyTcp || i.tcpReady) then
        BeginWorkload(o, s, i)
      else if i.now - startedAt >= service.readyTimeout then
        AbandonService(s, i, service.shutdownGrace)
      else Continue(s)
  }

  function WorkloadVerdict(status: Status): Option<Lifecycle> {
    match status
    case ExitStatus(code) => if code == 0 then None else Some(WorkloadExited(code))
    case KilledBy(signal) => Some(WorkloadKilled(signal))
    case OddStatus => Some(WorkloadEndedOddly)
  }

  /** What the workload's exit means for the run. */
  function Judge(s: Loop, status: Status): Loop {
    match WorkloadVerdict(status)
    case None => s.(workloadCompleted := true, managedStop := true)
    case Some(lifecycle) => s.(failure := Some(lifecycle))
  }

  /** Lines 783-786: the workload is reaped and its guard lets go of it. */
  function CollectWorkload(s: Loop, status: Status): Loop {
    Release(Did(s, Reaped(Workload, status)), Workload).(workload := false)
  }

  function EndWorkload(o: Options, s: Loop, i: Input, status: Status): StepResult
    requires o.service.Some?
  {
    var a := StopCollectors(o, CollectWorkload(s, status), i.stop);
    if a.Throw? then a else Terminate(Judge(a.state, status), i, o.service.value.shutdownGrace)
  }

  /** Lines 780-810: seeing the workload end. */
  function WorkloadPhase(o: Options, s: Loop, i: Input): StepResult {
    if !s.workload || o.service.None? then Continue(s)
    else
      match i.workloadWait
      case StillRunning => Continue(s)
      case WaitInterrupted => Continue(s)
      case WaitFails => Throw(s, WaitError)
      case Ended(status) => EndWorkload(o, s, i, status)
  }

  /** A signal to the target and to a running workload. */
  function SignalAll(s: Loop, i: Input, signal: Signal): StepResult {
    if i.stopSignalFails then Throw(s, SignalError)
    else
      var a := Did(s, Sent(Target, signal, i.now));
      if !a.workload then Continue(a)
      else if i.workloadSignalFails then Throw(a, SignalError)
      else Continue(Did(a, Sent(Workload, signal, i.now)))
  }

  /** A signal to both, and a deadline after it. */
  function SignalWithGrace(o: Options, s: Loop, i: Input, signal: Signal): StepResult {
    var a := SignalAll(s, i, signal);
    if a.Throw? then a else Continue(Grant(a.state, i.now + o.terminationGrace))
  }

  function Interrupt(o: Options, s: Loop, i: Input): StepResult {
    SignalWithGrace(o, s.(interrupted := true, stopping := true), i, Received(i.receivedSignal))
  }

  function TimeOut(o: Options, s: Loop, i: Input): StepResult {
    SignalWithGrace(o, s.(timedOut := true, stopping := true), i, Term)
  }

  function KillAll(s: Loop, i: Input): StepResult {
    var a := SignalAll(s, i, Kill);
    if a.Throw? then a else Continue(a.state.(sentKill := true))
  }

  /** Lines 821-843: interruption, timeout and escalation. */
  function StopPhase(o: Options, startedAt: int, s: Loop, i: Input): StepResult {
    if !s.stopping && i.receivedSignal != 0 then
      Interrupt(o, s, i)
    else if !s.stopping && o.timeout.Some? && i.now - startedAt >= o.timeout.value then
      TimeOut(o, s, i)
    else if s.stopping && !s.sentKill && s.graceDeadline.Some? && i.now >= s.graceDeadline.value then
      KillAll(s, i)
    else Continue(s)
  }

  function Iterate(o: Options, startedAt: int, s: Loop, i: Input): StepResult {
    match i.wait
    case Ended(status) => Left(Did(s, Reaped(Target, status)), status)
    case WaitFails => Throw(s, WaitError)
    case _ =>
      var a := ServicePhase(o, startedAt, s, i);
      if a.Throw? then a
      else
        var b := WorkloadPhase(o, a.state, i);
        if b.Throw? then b else StopPhase(o, startedAt, b.state, i)
  }

  /** The loop over as many iterations as there are inputs. */
  function Iterations(o: Options, startedAt: int, s: Loop, inputs: seq<Input>): StepResult
    decreases |inputs|
  {
    if inputs == [] then Continue(s)
    else
      var r := Iterate(o, startedAt, s, inputs[0]);
      if r.Continue? then Iterations(o, startedAt, r.state, inputs[1..]) else r
  }

  // ----- after the loop

  datatype Ending = Returned(outcome: Outcome, log: seq<Action>) | Threw(error: Error, log: seq<Action>)

  predicate Unexplained(s: Loop) {
    s.failure.None? && !s.interrupted && !s.timedOut
  }

  function Blame(s: Loop, failure: Lifecycle): Loop {
    if Unexplained(s) then s.(failure := Some(failure)) else s
  }

  /** Lines 853-859: a workload still running when the target ends. */
  function DropWorkload(s: Loop): Loop {
    if s.workload then Destroy(Blame(s, ServiceDiedDuringWorkload), Workload).(workload := false) else s
  }

  /** Lines 853-862: what the death of a service means. */
  function ServiceGone(o: Options, s: Loop): Loop {
    var a := DropWorkload(s);
    if o.service.Some? && !a.workloadCompleted then Blame(a, ServiceDiedBeforeWorkload) else a
  }

  /** Lines 928-945. */
  function Classify(s: Loop, status: Status, receivedSignal: nat): Result<Outcome, Error> {
    if s.interrupted then Ok(Outcome(Interrupted, 0, receivedSignal))
    else if s.timedOut then Ok(Outcome(TimedOut, 0, if status.KilledBy? then status.signal else 0))
    else if s.managedStop then Ok(Outcome(Exited, 0, 0))
    else match status
         case ExitStatus(code) => Ok(Outcome(Exited, code, 0))
         case KilledBy(signal) => Ok(Outcome(Signaled, 0, signal))
         case OddStatus => Err(UnsupportedStatus)
  }

  /** Lines 865-946. */
  function Report(o: Options, s: Loop, status: Status, f: FinishInput): Result<Outcome, Error> {
    if f.childError then Err(ChildError)
    else if s.failure.Some? then Err(LifecycleError(s.failure.value))
    else if o.requirePerf && ((s.counters && f.readings.countersFail) || (s.sampler && f.readings.samplerFails))
    then Err(CollectorError)
    else if f.metricsFail then Err(MetricsError)
    else Classify(s, status, f.receivedSignal)
  }

  function EndingOf(report: Result<Outcome, Error>, log: seq<Action>): Ending {
    if report.Ok? then Returned(report.value, log) else Threw(report.error, log)
  }

  function Finish(o: Options, s: Loop, status: Status, f: FinishInput): Ending {
    var a := ServiceGone(o, s);
    var b := StopCollectors(o, a, f.stop);
    if b.Throw? then Threw(b.error, Destroy(DropCollectors(b.state), Target).log)
    else
      var c := Release(b.state, Target);
      EndingOf(Report(o, c, status, f), DropCollectors(c).log)
  }

  /** A run that throws inside the loop destroys what it still holds, in the reverse order of the
      declarations (lines 628-737): the workload's guard, the collectors, the target's guard. */
  function Unwind(s: Loop): seq<Action> {
    Destroy(DropCollectors(if s.workload then Destroy(s, Workload) else s), Target).log
  }

  function Initial(counters: bool, sampler: bool): Loop {
    Loop(false, false, false, false, None, false, false, false, None, counters, sampler, false, false, [])
  }

  /** Lines 710-748: without a service the collectors start before the target is released. */
  function Begin(o: Options, counters: bool, sampler: bool, start: CollectorInput): StepResult {
    if o.service.None? then StartCollectors(o, Initial(counters, sampler), start)
    else Continue(Initial(counters, sampler))
  }

  /** A run whose loop ends within the given iterations. */
  function Run(o: Options, startedAt: int, counters: bool, sampler: bool, start: CollectorInput,
               inputs: seq<Input>, f: FinishInput): Option<Ending> {
    var first := Begin(o, counters, sampler, start);
    if first.Throw? then Some(Threw(first.error, Unwind(first.state)))
    else
      match Iterations(o, startedAt, first.state, inputs)
      case Continue(_) => None
      case Throw(s, error) => Some(Threw(error, Unwind(s)))
      case Left(s, status) => Some(Finish(o, s, status, f))
  }
}
