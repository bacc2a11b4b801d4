/** One iteration of the run loop as a table: every variable of the loop, and the error if it throws, from the
    variables before it and the system's answers (src/process/process_runner.cpp:750-851). The table
    knows nothing of phases and their helpers. */
module RunDecisions {
  import opened Results
  import opened ProcessRunner
  import opened RunnerProtocol

  // ----- what the answers mean

  /** The startup delay is over and the port, if one is probed, answers. */
  predicate Ready(o: Options, startedAt: int, i: Input) {
    && o.service.Some?
    && i.now - startedAt >= o.service.value.startupDelay
    && (o.service.value.readyTcp ==> i.tcpReady)
  }

  predicate Overdue(o: Options, startedAt: int, i: Input) {
    o.service.Some? && !Ready(o, startedAt, i) && i.now - startedAt >= o.service.value.readyTimeout
  }

  predicate TimeIsUp(o: Options, startedAt: int, i: Input) {
    o.timeout.Some? && i.now - startedAt >= o.timeout.value
  }

  /** A service that nothing has happened to yet. */
  predicate Waiting(s: Loop) {
    !s.workload && !s.workloadCompleted && s.failure.None? && !s.stopping
  }

  predicate Starts(o: Options, startedAt: int, s: Loop, i: Input) {
    Waiting(s) && Ready(o, startedAt, i)
  }

  predicate Abandons(o: Options, startedAt: int, s: Loop, i: Input) {
    Waiting(s) && Overdue(o, startedAt, i)
  }

  /** A workload, perhaps started in this iteration, is seen to have ended. */
  predicate Finds(o: Options, workload: bool, i: Input) {
    o.service.Some? && workload && i.workloadWait.Ended?
  }

  /** The deadline passes while stopping. */
  predicate Escalates(stopping: bool, s: Loop, deadline: Option<int>, i: Input) {
    stopping && !s.sentKill && deadline.Some? && i.now >= deadline.value
  }

  function ExitFailure(status: Status): Option<Lifecycle> {
    if status.ExitStatus? then if status.code == 0 then None else Some(WorkloadExited(status.code))
    else if status.KilledBy? then Some(WorkloadKilled(status.signal))
    else Some(WorkloadEndedOddly)
  }

  // ----- the variables

  /** From s to t waiting for the service decides this. */
  predicate ServiceTable(o: Options, startedAt: int, s: Loop, i: Input, t: Loop) {
    var starts, abandons := Starts(o, startedAt, s, i), Abandons(o, startedAt, s, i);
    && t.stopping == (s.stopping || abandons)
    && t.timedOut == s.timedOut
    && t.interrupted == s.interrupted
    && t.sentKill == s.sentKill
    && t.graceDeadline == (if abandons then Some(i.now + o.service.value.shutdownGrace) else s.graceDeadline)
    && t.workload == (s.workload || starts)
    && t.workloadCompleted == s.workloadCompleted
    && t.managedStop == s.managedStop
    && t.failure == (if abandons then Some(ReadinessTimedOut) else s.failure)
    && t.counters == s.counters
    && t.sampler == (s.sampler && !(starts && i.start.samplerFails))
    && t.collectorsStarted == (s.collectorsStarted || starts)
    && t.collectorsStopped == s.collectorsStopped
  }

  predicate WorkloadTable(o: Options, s: Loop, i: Input, t: Loop) {
    var finds := Finds(o, s.workload, i);
    var completes := finds && i.workloadWait.status == ExitStatus(0);
    var stops := finds && s.collectorsStarted && !s.collectorsStopped;
    && t.stopping == (s.stopping || finds)
    && t.timedOut == s.timedOut
    && t.interrupted == s.interrupted
    && t.sentKill == s.sentKill
    && t.graceDeadline == (if finds then Some(i.now + o.service.value.shutdownGrace) else s.graceDeadline)
    && t.workload == (s.workload && !finds)
    && t.workloadCompleted == (s.workloadCompleted || completes)
    && t.managedStop == (s.managedStop || completes)
    && t.failure == (if finds && !completes then ExitFailure(i.workloadWait.status) else s.failure)
    && t.counters == (s.counters && !(stops && i.stop.countersFail))
    && t.sampler == (s.sampler && !(stops && i.stop.samplerFails))
    && t.collectorsStarted == s.collectorsStarted
    && t.collectorsStopped == (s.collectorsStopped || stops)
  }

  predicate StopTable(o: Options, startedAt: int, s: Loop, i: Input, t: Loop) {
    var interrupts := !s.stopping && i.receivedSignal != 0;
    var timesOut := !s.stopping && i.receivedSignal == 0 && TimeIsUp(o, startedAt, i);
    && t.stopping == (s.stopping || interrupts || timesOut)
    && t.timedOut == (s.timedOut || timesOut)
    && t.interrupted == (s.interrupted || interrupts)
    && t.sentKill == (s.sentKill || Escalates(s.stopping, s, s.graceDeadline, i))
    && t.graceDeadline == (if interrupts || timesOut then Some(i.now + o.terminationGrace) else s.graceDeadline)
    && t.workload == s.workload
    && t.workloadCompleted == s.workloadCompleted
    && t.managedStop == s.managedStop
    && t.failure == s.failure
    && t.counters == s.counters
    && t.sampler == s.sampler
    && t.collectorsStarted == s.collectorsStarted
    && t.collectorsStopped == s.collectorsStopped
  }

  /** A whole iteration that goes on. Readiness comes before the workload's end, that before a
      signal, that before the timeout; each stop grants its own grace, and the kill comes once the grace
      is used up. */
  predicate Table(o: Options, startedAt: int, s: Loop, i: Input, t: Loop) {
    var starts, abandons := Starts(o, startedAt, s, i), Abandons(o, startedAt, s, i);
    var finds := Finds(o, s.workload || starts, i);
    var completes := finds && i.workloadWait.status == ExitStatus(0);
    var stops := finds && (s.collectorsStarted || starts) && !s.collectorsStopped;
    var interrupts := !s.stopping && !abandons && !finds && i.receivedSignal != 0;
    var timesOut := !s.stopping && !abandons && !finds && i.receivedSignal == 0 && TimeIsUp(o, startedAt, i);
    var managed := if abandons || finds then Some(i.now + o.service.value.shutdownGrace) else s.graceDeadline;
    && t.stopping == (s.stopping || abandons || finds || interrupts || timesOut)
    && t.timedOut == (s.timedOut || timesOut)
    && t.interrupted == (s.interrupted || interrupts)
    && t.sentKill == (s.sentKill || Escalates(s.stopping || abandons || finds, s, managed, i))
    && t.graceDeadline == (if interrupts || timesOut then Some(i.now + o.terminationGrace) else managed)
    && t.workload == ((s.workload || starts) && !finds)
    && t.workloadCompleted == (s.workloadCompleted || completes)
    && t.managedStop == (s.managedStop || completes)
    && t.failure == (if abandons then Some(ReadinessTimedOut)
                     else if finds && !completes then ExitFailure(i.workloadWait.status) else s.failure)
    && t.counters == (s.counters && !(stops && i.stop.countersFail))
    && t.sampler == (s.sampler && !(starts && i.start.samplerFails) && !(stops && i.stop.samplerFails))
    && t.collectorsStarted == (s.collectorsStarted || starts)
    && t.collectorsStopped == (s.collectorsStopped || stops)
  }

  // ----- the errors

  function ServiceFault(o: Options, startedAt: int, s: Loop, i: Input): Option<Error> {
    if Starts(o, startedAt, s, i) then
      if (s.counters && i.start.countersFail) || (s.sampler && i.start.samplerFails && o.requirePerf)
      then Some(CollectorError)
      else if i.spawnFails then Some(SpawnError) else None
    else if Abandons(o, startedAt, s, i) && i.termFails then Some(SignalError)
    else None
  }

  function WorkloadFault(o: Options, s: Loop, i: Input): Option<Error> {
    if Finds(o, s.workload, i) then
      if && s.collectorsStarted && !s.collectorsStopped && o.requirePerf
         && ((s.counters && i.stop.countersFail) || (s.sampler && i.stop.samplerFails))
      then Some(CollectorError)
      else if i.termFails then Some(SignalError) else None
    else if o.service.Some? && s.workload && i.workloadWait.WaitFails? then Some(WaitError)
    else None
  }

  predicate Signals(o: Options, startedAt: int, s: Loop, i: Input) {
    (!s.stopping && (i.receivedSignal != 0 || TimeIsUp(o, startedAt, i))) || Escalates(s.stopping, s, s.graceDeadline, i)
  }

  function StopFault(o: Options, startedAt: int, s: Loop, i: Input): Option<Error> {
    if Signals(o, startedAt, s, i) && (i.stopSignalFails || (s.workload && i.workloadSignalFails))
    then Some(SignalError) else None
  }

  /** A whole iteration whose target has not been seen to end. */
  function Fault(o: Options, startedAt: int, s: Loop, i: Input): Option<Error> {
    var starts, abandons := Starts(o, startedAt, s, i), Abandons(o, startedAt, s, i);
    var held := s.workload || starts;
    var finds := Finds(o, held, i);
    var sampler := s.sampler && !(starts && i.start.samplerFails);
    var stops := finds && (s.collectorsStarted || starts) && !s.collectorsStopped;
    var managed := if abandons || finds then Some(i.now + o.service.value.shutdownGrace) else s.graceDeadline;
    var stopping := s.stopping || abandons || finds;
    if i.wait.WaitFails? then Some(WaitError)
    else if starts && ((s.counters && i.start.countersFail) || (s.sampler && i.start.samplerFails && o.requirePerf))
    then Some(CollectorError)
    else if starts && i.spawnFails then Some(SpawnError)
    else if o.service.Some? && held && i.workloadWait.WaitFails? then Some(WaitError)
    else if stops && o.requirePerf && ((s.counters && i.stop.countersFail) || (sampler && i.stop.samplerFails))
    then Some(CollectorError)
    else if (abandons || finds) && i.termFails then Some(SignalError)
    else if && ((!stopping && (i.receivedSignal != 0 || TimeIsUp(o, startedAt, i))) || Escalates(stopping, s, managed, i))
            && (i.stopSignalFails || (held && !finds && i.workloadSignalFails))
    then Some(SignalError)
    else None
  }

  predicate Agrees(r: StepResult, fault: Option<Error>) {
    && !r.Left?
    && (if r.Throw? then Some(r.error) else None) == fault
  }

  // ----- the run loop keeps to the table

  lemma CountersOn(s: Loop, i: CollectorInput)
    ensures var r := StartCounters(s, i);
      && Agrees(r, if s.counters && i.countersFail then Some(CollectorError) else None)
      && SameStanding(s, r.state) && SameHold(s, r.state)
  {
  }

  lemma SamplerOn(o: Options, s: Loop, i: CollectorInput)
    ensures var r := StartSampler(o, s, i);
      && Agrees(r, if s.sampler && i.samplerFails && o.requirePerf then Some(CollectorError) else None)
      && SameStanding(s, r.state)
      && r.state.counters == s.counters
      && r.state.sampler == (s.sampler && !i.samplerFails)
      && r.state.collectorsStarted == s.collectorsStarted && r.state.collectorsStopped == s.collectorsStopped
  {
  }

  lemma StartTable(o: Options, s: Loop, i: CollectorInput)
    ensures var r := StartCollectors(o, s, i);
      && Agrees(r, if (s.counters && i.countersFail) || (s.sampler && i.samplerFails && o.requirePerf)
                   then Some(CollectorError) else None)
      && (r.Continue? ==>
            && SameStanding(s, r.state)
            && r.state.counters == s.counters
            && r.state.sampler == (s.sampler && !i.samplerFails)
            && r.state.collectorsStarted
            && r.state.collectorsStopped == s.collectorsStopped)
  {
    hide StartCounters, StartSampler;
    CountersOn(s, i);
    SamplerOn(o, StartCounters(s, i).state, i);
  }

  lemma CountersOff(o: Options, s: Loop, i: CollectorInput)
    ensures var r := StopCounters(o, s, i);
      && Agrees(r, if s.counters && i.countersFail && o.requirePerf then Some(CollectorError) else None)
      && SameStanding(s, r.state)
      && r.state.counters == (s.counters && !i.countersFail)
      && r.state.sampler == s.sampler
      && r.state.collectorsStarted == s.collectorsStarted && r.state.collectorsStopped == s.collectorsStopped
  {
  }

  lemma SamplerOff(o: Options, s: Loop, i: CollectorInput)
    ensures var r := StopSampler(o, s, i);
      && Agrees(r, if s.sampler && i.samplerFails && o.requirePerf then Some(CollectorError) else None)
      && SameStanding(s, r.state)
      && r.state.counters == s.counters
      && r.state.sampler == (s.sampler && !i.samplerFails)
      && r.state.collectorsStarted == s.collectorsStarted && r.state.collectorsStopped == s.collectorsStopped
  {
  }

  lemma EndTable(o: Options, s: Loop, i: CollectorInput)
    ensures var r, stops := StopCollectors(o, s, i), s.collectorsStarted && !s.collectorsStopped;
      && Agrees(r, if stops && o.requirePerf && ((s.counters && i.countersFail) || (s.sampler && i.samplerFails))
                   then Some(CollectorError) else None)
      && (r.Continue? ==>
            && SameStanding(s, r.state)
            && r.state.counters == (s.counters && !(stops && i.countersFail))
            && r.state.sampler == (s.sampler && !(stops && i.samplerFails))
            && r.state.collectorsStarted == s.collectorsStarted
            && r.state.collectorsStopped == (s.collectorsStopped || stops))
  {
    hide StopCounters, StopSampler, SameStanding;
    StandsItself(s);
    CountersOff(o, s, i);
    var a := StopCounters(o, s, i);
    SamplerOff(o, a.state, i);
    var b := StopSampler(o, a.state, i).state;
    StandsInTurn(s, a.state, b, b.(collectorsStopped := true));
  }

  lemma StandsItself(s: Loop)
    ensures SameStanding(s, s)
  {
  }

  /** Marking the collectors as stopped changes nothing else. */
  lemma StandsInTurn(s: Loop, t: Loop, u: Loop, v: Loop)
    requires SameStanding(s, t) && SameStanding(t, u) && v == u.(collectorsStopped := true)
    ensures SameStanding(s, v)
  {
  }

  lemma TerminateTable(s: Loop, i: Input, grace: nat)
    ensures var r := Terminate(s, i, grace);
      && Agrees(r, if i.termFails then Some(SignalError) else None)
      && SameHold(s, r.state)
      && r.state.stopping
      && r.state.timedOut == s.timedOut && r.state.interrupted == s.interrupted
      && r.state.sentKill == s.sentKill
      && r.state.workload == s.workload
      && r.state.workloadCompleted == s.workloadCompleted && r.state.managedStop == s.managedStop
      && r.state.failure == s.failure
      && (r.Continue? ==> r.state.graceDeadline == Some(i.now + grace))
  {
  }

  lemma LaunchTable(o: Options, startedAt: int, s: Loop, i: Input)
    requires Starts(o, startedAt, s, i)
    ensures var r := BeginWorkload(o, s, i);
      Agrees(r, ServiceFault(o, startedAt, s, i)) && (r.Continue? ==> ServiceTable(o, startedAt, s, i, r.state))
  {
    StartTable(o, s, i.start);
    hide StartCollectors;
  }

  lemma AbandonTable(o: Options, startedAt: int, s: Loop, i: Input)
    requires Abandons(o, startedAt, s, i)
    ensures var r := AbandonService(s, i, o.service.value.shutdownGrace);
      Agrees(r, ServiceFault(o, startedAt, s, i)) && (r.Continue? ==> ServiceTable(o, startedAt, s, i, r.state))
  {
    TerminateTable(s.(failure := Some(ReadinessTimedOut)), i, o.service.value.shutdownGrace);
    hide Terminate;
  }

  lemma ServicePhaseTable(o: Options, startedAt: int, s: Loop, i: Input)
    ensures var r := ServicePhase(o, startedAt, s, i);
      Agrees(r, ServiceFault(o, startedAt, s, i)) && (r.Continue? ==> ServiceTable(o, startedAt, s, i, r.state))
  {
    hide BeginWorkload, AbandonService;
    if Starts(o, startedAt, s, i) {
      LaunchTable(o, startedAt, s, i);
    } else if Abandons(o, startedAt, s, i) {
      AbandonTable(o, startedAt, s, i);
    }
  }

  lemma JudgeTable(s: Loop, status: Status)
    ensures var t := Judge(s, status);
      && SameHold(s, t)
      && t.stopping == s.stopping && t.timedOut == s.timedOut && t.interrupted == s.interrupted
      && t.sentKill == s.sentKill && t.graceDeadline == s.graceDeadline && t.workload == s.workload
      && t.workloadCompleted == (s.workloadCompleted || status == ExitStatus(0))
      && t.managedStop == (s.managedStop || status == ExitStatus(0))
      && t.failure == (if status != ExitStatus(0) then ExitFailure(status) else s.failure)
  {
    match WorkloadVerdict(status)
    case None => assert Judge(s, status) == s.(workloadCompleted := true, managedStop := true);
    case Some(lifecycle) => assert Judge(s, status) == s.(failure := Some(lifecycle));
  }

  lemma CollectTable(s: Loop, status: Status)
    ensures var t := CollectWorkload(s, status);
      && SameStanding(s.(workload := false), t)
      && SameHold(s, t)
  {
  }

  lemma EndWorkloadTable(o: Options, s: Loop, i: Input)
    requires Finds(o, s.workload, i)
    ensures var r := EndWorkload(o, s, i, i.workloadWait.status);
      Agrees(r, WorkloadFault(o, s, i)) && (r.Continue? ==> WorkloadTable(o, s, i, r.state))
  {
    hide StopCollectors, Judge, Terminate, CollectWorkload, ExitFailure;
    var status := i.workloadWait.status;
    var t := CollectWorkload(s, status);
    CollectTable(s, status);
    EndTable(o, t, i.stop);
    var a := StopCollectors(o, t, i.stop);
    if a.Continue? {
      JudgeTable(a.state, status);
      TerminateTable(Judge(a.state, status), i, o.service.value.shutdownGrace);
    }
  }

  lemma WorkloadPhaseTable(o: Options, s: Loop, i: Input)
    ensures var r := WorkloadPhase(o, s, i);
      Agrees(r, WorkloadFault(o, s, i)) && (r.Continue? ==> WorkloadTable(o, s, i, r.state))
  {
    hide EndWorkload;
    if Finds(o, s.workload, i) {
      EndWorkloadTable(o, s, i);
    }
  }

  lemma DidTable(s: Loop, a: Action)
    ensures SameStanding(s, Did(s, a)) && SameHold(s, Did(s, a))
  {
  }

  lemma SignalTable(s: Loop, i: Input, signal: Signal)
    ensures var r := SignalAll(s, i, signal);
      && Agrees(r, if i.stopSignalFails || (s.workload && i.workloadSignalFails) then Some(SignalError) else None)
      && SameStanding(s, r.state) && SameHold(s, r.state)
  {
    hide Did, SameHold;
    var a := Did(s, Sent(Target, signal, i.now));
    HoldsItself(s);
    DidTable(s, Sent(Target, signal, i.now));
    DidTable(a, Sent(Workload, signal, i.now));
    HoldsInTurn(s, a, Did(a, Sent(Workload, signal, i.now)));
  }

  lemma HoldsItself(s: Loop)
    ensures SameHold(s, s)
  {
  }

  lemma HoldsInTurn(s: Loop, t: Loop, u: Loop)
    requires SameHold(s, t) && SameHold(t, u)
    ensures SameHold(s, u)
  {
  }

  /** A signal to both at the state with the flags up, which then has its grace. */
  lemma GraceTable(o: Options, s: Loop, i: Input, signal: Signal)
    ensures var r := SignalWithGrace(o, s, i, signal);
      && Agrees(r, if i.stopSignalFails || (s.workload && i.workloadSignalFails) then Some(SignalError) else None)
      && (r.Continue? ==>
            && SameStanding(s.(graceDeadline := Some(i.now + o.terminationGrace)), r.state) && SameHold(s, r.state))
  {
    SignalTable(s, i, signal);
    hide SignalAll;
  }

  lemma KillTable(s: Loop, i: Input)
    ensures var r := KillAll(s, i);
      && Agrees(r, if i.stopSignalFails || (s.workload && i.workloadSignalFails) then Some(SignalError) else None)
      && (r.Continue? ==> SameStanding(s.(sentKill := true), r.state) && SameHold(s, r.state))
  {
    SignalTable(s, i, Kill);
    hide SignalAll;
  }

  lemma InterruptTable(o: Options, startedAt: int, s: Loop, i: Input)
    requires !s.stopping && i.receivedSignal != 0
    ensures var r := Interrupt(o, s, i);
      Agrees(r, StopFault(o, startedAt, s, i)) && (r.Continue? ==> StopTable(o, startedAt, s, i, r.state))
  {
    GraceTable(o, s.(interrupted := true, stopping := true), i, Received(i.receivedSignal));
    hide SignalWithGrace;
  }

  lemma TimeOutTable(o: Options, startedAt: int, s: Loop, i: Input)
    requires !s.stopping && i.receivedSignal == 0 && TimeIsUp(o, startedAt, i)
    ensures var r := TimeOut(o, s, i);
      Agrees(r, StopFault(o, startedAt, s, i)) && (r.Continue? ==> StopTable(o, startedAt, s, i, r.state))
  {
    GraceTable(o, s.(timedOut := true, stopping := true), i, Term);
    hide SignalWithGrace;
  }

  lemma EscalateTable(o: Options, startedAt: int, s: Loop, i: Input)
    requires Escalates(s.stopping, s, s.graceDeadline, i)
    ensures var r := KillAll(s, i);
      Agrees(r, StopFault(o, startedAt, s, i)) && (r.Continue? ==> StopTable(o, startedAt, s, i, r.state))
  {
    KillTable(s, i);
    hide KillAll;
  }

  lemma StopPhaseTable(o: Options, startedAt: int, s: Loop, i: Input)
    ensures var r := StopPhase(o, startedAt, s, i);
      Agrees(r, StopFault(o, startedAt, s, i)) && (r.Continue? ==> StopTable(o, startedAt, s, i, r.state))
  {
    hide Interrupt, TimeOut, KillAll;
    if !s.stopping && i.receivedSignal != 0 {
      InterruptTable(o, startedAt, s, i);
    } else if !s.stopping && TimeIsUp(o, startedAt, i) {
      TimeOutTable(o, startedAt, s, i);
    } else if Escalates(s.stopping, s, s.graceDeadline, i) {
      EscalateTable(o, startedAt, s, i);
    }
  }

  lemma TablesInTurn(o: Options, startedAt: int, s: Loop, i: Input, a: Loop, b: Loop, t: Loop)
    requires ServiceTable(o, startedAt, s, i, a) && WorkloadTable(o, a, i, b) && StopTable(o, startedAt, b, i, t)
    ensures Table(o, startedAt, s, i, t)
  {
    hide Ready, TimeIsUp, ExitFailure;
  }

  lemma FaultsInTurn(o: Options, startedAt: int, s: Loop, i: Input, a: Loop, b: Loop)
    requires !i.wait.WaitFails?
    ensures ServiceFault(o, startedAt, s, i).Some? ==>
      Fault(o, startedAt, s, i) == ServiceFault(o, startedAt, s, i)
    ensures ServiceFault(o, startedAt, s, i).None? && ServiceTable(o, startedAt, s, i, a) && WorkloadFault(o, a, i).Some? ==>
      Fault(o, startedAt, s, i) == WorkloadFault(o, a, i)
    ensures && ServiceFault(o, startedAt, s, i).None? && ServiceTable(o, startedAt, s, i, a)
            && WorkloadFault(o, a, i).None? && WorkloadTable(o, a, i, b) ==>
      Fault(o, startedAt, s, i) == StopFault(o, startedAt, b, i)
  {
    hide TimeIsUp, ExitFailure;
  }

  /** Every iteration: it throws exactly the error the table names, and otherwise leaves exactly the
      variables the table gives. */
  lemma Decisions(o: Options, startedAt: int, s: Loop, i: Input)
    ensures var r := Iterate(o, startedAt, s, i);
      if i.wait.Ended? then r == Left(s.(log := s.log + [Reaped(Target, i.wait.status)]), i.wait.status)
      else Agrees(r, Fault(o, startedAt, s, i)) && (r.Continue? ==> Table(o, startedAt, s, i, r.state))
  {
    hide ServicePhase, WorkloadPhase, StopPhase, ServiceTable, WorkloadTable, StopTable, Table, ServiceFault, WorkloadFault,
      StopFault, Fault;
    if i.wait.WaitFails? {
      WaitFault(o, startedAt, s, i);
    } else if !i.wait.Ended? {
      var a := ServicePhase(o, startedAt, s, i);
      ServicePhaseTable(o, startedAt, s, i);
      var b := WorkloadPhase(o, a.state, i);
      WorkloadPhaseTable(o, a.state, i);
      FaultsInTurn(o, startedAt, s, i, a.state, b.state);
      StopPhaseTable(o, startedAt, b.state, i);
      var c := StopPhase(o, startedAt, b.state, i);
      if a.Continue? && b.Continue? && c.Continue? {
        TablesInTurn(o, startedAt, s, i, a.state, b.state, c.state);
      }
    }
  }

  lemma WaitFault(o: Options, startedAt: int, s: Loop, i: Input)
    requires i.wait.WaitFails?
    ensures Fault(o, startedAt, s, i) == Some(WaitError)
  {
  }

  /** What an iteration newly does has its reason: the workload starts only when the service is ready, the
      service is given up only when it is late, and flags need a signal or a timeout that has passed. */
  lemma NewlyCaused(o: Options, startedAt: int, s: Loop, i: Input)
    requires Iterate(o, startedAt, s, i).Continue?
    ensures var t := Iterate(o, startedAt, s, i).state;
      && (!s.workload && t.workload ==>
            && o.service.Some?
            && i.now - startedAt >= o.service.value.startupDelay
            && (o.service.value.readyTcp ==> i.tcpReady))
      && (s.failure != t.failure && t.failure == Some(ReadinessTimedOut) ==>
            && o.service.Some?
            && !(i.now - startedAt >= o.service.value.startupDelay && (o.service.value.readyTcp ==> i.tcpReady))
            && i.now - startedAt >= o.service.value.readyTimeout)
      && (!s.timedOut && t.timedOut ==>
            i.receivedSignal == 0 && o.timeout.Some? && i.now - startedAt >= o.timeout.value)
      && (!s.interrupted && t.interrupted ==> i.receivedSignal != 0)
  {
    hide Iterate, Fault;
    Decisions(o, startedAt, s, i);
    ContinuesUnended(o, startedAt, s, i);
  }

  lemma ContinuesUnended(o: Options, startedAt: int, s: Loop, i: Input)
    requires Iterate(o, startedAt, s, i).Continue?
    ensures !i.wait.Ended?
  {
    hide ServicePhase, WorkloadPhase, StopPhase;
  }

  // ----- after the loop

  /** What becomes of a run whose target has ended with a status. */
  function Conclusion(o: Options, s: Loop, status: Status, f: FinishInput): Result<Outcome, Error> {
    var unexplained := s.failure.None? && !s.interrupted && !s.timedOut;
    var stops := s.collectorsStarted && !s.collectorsStopped;
    if stops && o.requirePerf && ((s.counters && f.stop.countersFail) || (s.sampler && f.stop.samplerFails))
    then Err(CollectorError)
    else if f.childError then Err(ChildError)
    else if s.failure.Some? then Err(LifecycleError(s.failure.value))
    else if unexplained && s.workload then Err(LifecycleError(ServiceDiedDuringWorkload))
    else if unexplained && o.service.Some? && !s.workloadCompleted then Err(LifecycleError(ServiceDiedBeforeWorkload))
    else if && o.requirePerf
            && ((s.counters && !(stops && f.stop.countersFail) && f.readings.countersFail)
                || (s.sampler && !(stops && f.stop.samplerFails) && f.readings.samplerFails))
    then Err(CollectorError)
    else if f.metricsFail then Err(MetricsError)
    else if s.interrupted then Ok(Outcome(Interrupted, 0, f.receivedSignal))
    else if s.timedOut then Ok(Outcome(TimedOut, 0, if status.KilledBy? then status.signal else 0))
    else if s.managedStop then Ok(Outcome(Exited, 0, 0))
    else if status.ExitStatus? then Ok(Outcome(Exited, status.code, 0))
    else if status.KilledBy? then Ok(Outcome(Signaled, 0, status.signal))
    else Err(UnsupportedStatus)
  }

  /** What is left when the service has gone. */
  lemma GoneTable(o: Options, s: Loop)
    ensures var t := ServiceGone(o, s);
      var unexplained := s.failure.None? && !s.interrupted && !s.timedOut;
      && SameHold(s, t)
      && t.interrupted == s.interrupted && t.timedOut == s.timedOut && t.managedStop == s.managedStop
      && t.failure == (if !unexplained then s.failure
                       else if s.workload then Some(ServiceDiedDuringWorkload)
                       else if o.service.Some? && !s.workloadCompleted then Some(ServiceDiedBeforeWorkload)
                       else None)
  {
    hide DropWorkload, Blame;
    DropTable(s);
    BlameTable(DropWorkload(s), ServiceDiedBeforeWorkload);
  }

  lemma DropTable(s: Loop)
    ensures var t := DropWorkload(s);
      && SameHold(s, t)
      && t.interrupted == s.interrupted && t.timedOut == s.timedOut && t.managedStop == s.managedStop
      && t.workloadCompleted == s.workloadCompleted
      && t.failure == (if s.workload && s.failure.None? && !s.interrupted && !s.timedOut
                       then Some(ServiceDiedDuringWorkload) else s.failure)
  {
    hide Destroy, Blame;
    BlameTable(s, ServiceDiedDuringWorkload);
    DestroyTable(Blame(s, ServiceDiedDuringWorkload));
  }

  lemma BlameTable(s: Loop, failure: Lifecycle)
    ensures var t := Blame(s, failure);
      && SameHold(s, t)
      && t.interrupted == s.interrupted && t.timedOut == s.timedOut && t.managedStop == s.managedStop
      && t.workload == s.workload && t.workloadCompleted == s.workloadCompleted
      && t.failure == (if s.failure.None? && !s.interrupted && !s.timedOut then Some(failure) else s.failure)
  {
    BlameAlike(s, failure);
    BlameFlags(s, failure);
    hide Blame, SameHold;
  }

  lemma BlameFlags(s: Loop, failure: Lifecycle)
    ensures var t := Blame(s, failure);
      && t.interrupted == s.interrupted && t.timedOut == s.timedOut && t.managedStop == s.managedStop
      && t.workloadCompleted == s.workloadCompleted
      && t.failure == (if Unexplained(s) then Some(failure) else s.failure)
  {
  }

  lemma DestroyTable(s: Loop)
    ensures var t := Destroy(s, Workload); SameStanding(s, t) && SameHold(s, t)
  {
  }

  lemma ReleaseTable(s: Loop)
    ensures var t := Release(s, Target); SameStanding(s, t) && SameHold(s, t)
  {
  }

  function ResultOf(e: Ending): Result<Outcome, Error> {
    if e.Returned? then Ok(e.outcome) else Err(e.error)
  }

  /** Every run that leaves its loop returns or throws what the table names. */
  lemma Conclusions(o: Options, s: Loop, status: Status, f: FinishInput)
    ensures ResultOf(Finish(o, s, status, f)) == Conclusion(o, s, status, f)
  {
    hide ServiceGone, StopCollectors, Release, Destroy, DropCollectors;
    var a := ServiceGone(o, s);
    GoneTable(o, s);
    EndTable(o, a, f.stop);
    ReleaseTable(StopCollectors(o, a, f.stop).state);
  }
}
