/** What every run of the loop keeps to: a protocol that says which action may follow which,
    and a proof that whatever the system answers, the run's log keeps to it, with one exception
    that is characterized exactly (src/process/process_runner.cpp:122-144, 663-871). */
module RunnerProtocol {
  import opened Results
  import opened ProcessRunner

  // ----- what the log says so far

  /** The collectors: which have been started, stopped and destroyed. */
  datatype Used = Used(countersOn: bool, countersOff: bool, samplerOn: bool, samplerOff: bool,
                       countersGone: bool, samplerGone: bool) {
    predicate Kept() {
      !countersGone && !samplerGone
    }
  }

  /** A process: whether it has been waited for, and whether its guard has acted. */
  datatype Child = Child(gone: bool, guarded: bool)

  /** The first stop signal to the target, the deadlines, the kill, and the signal to the workload
      that is still owed after the target got its own. */
  datatype Stops = Stops(first: Option<int>, deadlines: nat, deadline: Option<int>, killed: bool, owed: Option<Action>)

  datatype Past = Past(used: Used, started: bool, seen: Option<Status>, workload: Child, target: Child, stops: Stops)

  const UNUSED: Used := Used(false, false, false, false, false, false)
  const HELD: Child := Child(false, false)
  const DONE: Child := Child(true, true)
  const NO_STOPS: Stops := Stops(None, 0, None, false, None)
  const NOTHING: Past := Past(UNUSED, false, None, HELD, HELD, NO_STOPS)

  /** The target has been sent a signal; if the workload runs, it is owed the same. */
  function Told(s: Stops, signal: Signal, at: int, both: bool): Stops {
    var t := if signal == Kill then s.(killed := true) else if s.first.None? then s.(first := Some(at)) else s;
    if both then t.(owed := Some(Sent(Workload, signal, at))) else t
  }

  predicate WorkloadRuns(p: Past) {
    p.started && p.workload == HELD
  }

  function AfterSent(p: Past, to: Process, signal: Signal, at: int): Past {
    if to == Workload then p.(stops := p.stops.(owed := None))
    else p.(stops := Told(p.stops, signal, at, WorkloadRuns(p)))
  }

  function AfterReaped(p: Past, process: Process, status: Status): Past {
    if process == Target then p.(target := p.target.(gone := true))
    else p.(workload := p.workload.(gone := true), seen := Some(status))
  }

  function AfterGroupKilled(p: Past, process: Process): Past {
    if process == Target then p.(target := p.target.(guarded := true))
    else p.(workload := p.workload.(guarded := true), stops := p.stops.(owed := None))
  }

  function AfterWaited(p: Past, process: Process): Past {
    if process == Target then p.(target := p.target.(gone := true))
    else p.(workload := p.workload.(gone := true))
  }

  function After(p: Past, a: Action): Past {
    match a
    case StartedCounters => p.(used := p.used.(countersOn := true))
    case StartedSampler => p.(used := p.used.(samplerOn := true))
    case StoppedCounters => p.(used := p.used.(countersOff := true))
    case StoppedSampler => p.(used := p.used.(samplerOff := true))
    case DroppedCounters => p.(used := p.used.(countersGone := true))
    case DroppedSampler => p.(used := p.used.(samplerGone := true))
    case StartedWorkload => p.(started := true)
    case Deadline(until) => p.(stops := p.stops.(deadlines := p.stops.deadlines + 1, deadline := Some(until)))
    case Reaped(process, status) => AfterReaped(p, process, status)
    case Sent(to, signal, at) => AfterSent(p, to, signal, at)
    case GroupKilled(process) => AfterGroupKilled(p, process)
    case PidKilled(_) => p
    case Waited(process) => AfterWaited(p, process)
  }

  function PastOf(log: seq<Action>): Past {
    if log == [] then NOTHING else After(PastOf(log[..|log| - 1]), log[|log| - 1])
  }

  lemma PastOfMore(log: seq<Action>, a: Action)
    ensures PastOf(log + [a]) == After(PastOf(log), a)
  {
    assert (log + [a])[..|log|] == log;
  }

  // ----- which action may come next

  /** How long after the first stop signal a kill can still come, when the loop never sleeps
      longer than d. */
  function Patience(o: Options, d: nat): nat {
    o.terminationGrace + (if o.service.Some? then o.service.value.shutdownGrace else 0) + 2 * d
  }

  /** A deadline is set when stopping begins, and once more when the workload has gone. */
  predicate MayGrant(p: Past) {
    p.stops.deadlines == 0 || (p.stops.deadlines == 1 && p.workload.gone)
  }

  /** What collectors measure has ended. */
  predicate Ended(p: Past) {
    p.workload.gone || p.target.gone
  }

  /** A signal of the loop to the target: a stop signal begins stopping or follows the workload's
      end; the kill comes once, after a stop signal, not before the deadline in force, and not
      later than the run's patience after the first stop signal. */
  predicate MaySignal(o: Options, d: nat, p: Past, signal: Signal, at: int) {
    && p.target == HELD
    && (signal != Kill ==> MayGrant(p))
    && (signal == Kill ==>
          && !p.stops.killed
          && p.stops.deadline.Some?
          && p.stops.deadline.value <= at
          && p.stops.first.Some?
          && p.stops.first.value <= at <= p.stops.first.value + Patience(o, d))
  }

  /** Collectors and the workload start once, before any stop signal, and the loop stops collectors
      once, after what they measure has ended. A collector is destroyed once, and then neither
      started nor stopped. A process is signalled by the loop, or reaped by it, only
      while its guard holds it and it has not been waited for; the workload is signalled only as
      the target was. A guard acts once: it kills the group, and kills and awaits the process
      itself only if nobody has waited for it yet. */
  predicate Rule(o: Options, d: nat, p: Past, a: Action) {
    match a
    case StartedCounters => !p.used.countersOn && !p.used.countersGone && !p.started && p.stops.first.None?
    case StartedSampler => !p.used.samplerOn && !p.used.samplerGone && !p.started && p.stops.first.None?
    case StoppedCounters => p.used.countersOn && !p.used.countersOff && !p.used.countersGone && Ended(p)
    case StoppedSampler => p.used.samplerOn && !p.used.samplerOff && !p.used.samplerGone && Ended(p)
    case DroppedCounters => !p.used.countersGone
    case DroppedSampler => !p.used.samplerGone
    case StartedWorkload => o.service.Some? && !p.started && p.stops.first.None?
    case Deadline(_) => p.stops.first.Some? && MayGrant(p)
    case Reaped(process, _) => if process == Target then p.target == HELD else WorkloadRuns(p)
    case Sent(to, signal, at) =>
      if to == Workload then WorkloadRuns(p) && p.stops.owed == Some(a) else MaySignal(o, d, p, signal, at)
    case GroupKilled(process) => if process == Target then !p.target.guarded else p.started && !p.workload.guarded
    case PidKilled(process) => (if process == Target then p.target else p.workload) == Child(false, true)
    case Waited(process) => (if process == Target then p.target else p.workload) == Child(false, true)
  }

  /** The rules, and an owed signal comes next, unless the run gives up and the guard kills. */
  predicate Allowed(o: Options, d: nat, p: Past, a: Action) {
    && Rule(o, d, p, a)
    && (p.stops.owed.Some? ==> a == p.stops.owed.value || a == GroupKilled(Workload))
  }

  predicate Legal(o: Options, d: nat, log: seq<Action>) {
    log == [] ||
    (Legal(o, d, log[..|log| - 1]) && Allowed(o, d, PastOf(log[..|log| - 1]), log[|log| - 1]))
  }

  lemma LegalMore(o: Options, d: nat, log: seq<Action>, a: Action)
    requires Legal(o, d, log) && Allowed(o, d, PastOf(log), a)
    ensures Legal(o, d, log + [a]) && PastOf(log + [a]) == After(PastOf(log), a)
  {
    assert (log + [a])[..|log|] == log;
  }

  lemma DidKeeps(o: Options, d: nat, s: Loop, a: Action)
    requires Legal(o, d, s.log) && Allowed(o, d, PastOf(s.log), a)
    ensures Legal(o, d, Did(s, a).log) && PastOf(Did(s, a).log) == After(PastOf(s.log), a)
  {
    LegalMore(o, d, s.log, a);
  }

  // ----- the state between two actions

  /** The log is legal and the state knows who is still there. */
  predicate Accounted(o: Options, d: nat, s: Loop) {
    var p := PastOf(s.log);
    && Legal(o, d, s.log)
    && p.used.Kept()
    && p.target == HELD
    && p.workload == (if p.started && !s.workload then DONE else HELD)
    && (s.workload ==> p.started)
    && (!s.workload ==> p.stops.owed.None?)
  }

  /** A collector that is held has been started, and has not been stopped before both are. */
  predicate Metered(s: Loop, u: Used) {
    && (s.collectorsStarted ==> (s.counters ==> u.countersOn) && (s.sampler ==> u.samplerOn))
    && (!s.collectorsStopped ==> !u.countersOff && !u.samplerOff)
    && u.Kept()
  }

  /** Before anything has been stopped. */
  predicate Running(o: Options, s: Loop, p: Past) {
    && p.stops == NO_STOPS
    && p.started == s.workload
    && (s.workload ==> o.service.Some?)
    && (o.service.Some? && !p.started ==> p.used == UNUSED)
  }

  /** After: the deadline in force. A workload still running means that the only deadline so far
      is the one of an interruption or a timeout. */
  predicate Stopping(o: Options, d: nat, low: int, now: int, s: Loop, p: Past) {
    && p.stops.first.Some?
    && p.stops.deadline.Some?
    && 1 <= p.stops.deadlines <= 2
    && p.stops.owed.None?
    && p.stops.first.value <= now
    && (s.workload ==>
          && p.stops.deadlines == 1
          && o.service.Some?
          && p.stops.deadline.value == p.stops.first.value + o.terminationGrace)
    && (!p.stops.killed ==> low <= p.stops.deadline.value <= p.stops.first.value + Patience(o, d) - d)
  }

  /** Holds between two iterations with low == now, the last reading of the clock; within an
      iteration low is the reading before. */
  predicate Follows(o: Options, d: nat, low: int, now: int, s: Loop) {
    var p := PastOf(s.log);
    && Accounted(o, d, s)
    && Metered(s, p.used)
    && low <= now <= low + d
    && p.stops.deadline == s.graceDeadline
    && p.stops.killed == s.sentKill
    && (if s.stopping then Stopping(o, d, low, now, s, p) else Running(o, s, p))
  }

  /** What a phase must deliver. */
  predicate Sound(o: Options, d: nat, low: int, now: int, r: StepResult) {
    match r
    case Continue(s) => Follows(o, d, low, now, s)
    case Throw(s, _) => Accounted(o, d, s)
    case Left(s, _) => false
  }

  // ----- the collectors

  /** Everything but the collectors and the log. */
  predicate SameStanding(s: Loop, t: Loop) {
    && t.stopping == s.stopping
    && t.timedOut == s.timedOut
    && t.interrupted == s.interrupted
    && t.sentKill == s.sentKill
    && t.graceDeadline == s.graceDeadline
    && t.workload == s.workload
    && t.workloadCompleted == s.workloadCompleted
    && t.managedStop == s.managedStop
    && t.failure == s.failure
  }

  /** Everything but the collectors. */
  predicate SameButCollectors(p: Past, q: Past) {
    && q.started == p.started && q.seen == p.seen && q.workload == p.workload && q.target == p.target && q.stops == p.stops
    && q.used.countersGone == p.used.countersGone && q.used.samplerGone == p.used.samplerGone
  }

  /** From s to t only the collectors did something, and the log stayed legal. */
  predicate Prepares(o: Options, d: nat, s: Loop, t: Loop) {
    && Legal(o, d, t.log)
    && SameStanding(s, t)
    && SameButCollectors(PastOf(s.log), PastOf(t.log))
  }

  lemma PreparesInTurn(o: Options, d: nat, s: Loop, t: Loop, u: Loop)
    requires Prepares(o, d, s, t) && Prepares(o, d, t, u)
    ensures Prepares(o, d, s, u)
  {
    hide Legal, PastOf;
  }

  lemma PreparesFlags(o: Options, d: nat, s: Loop, t: Loop, counters: bool, sampler: bool, started: bool, stopped: bool)
    requires Prepares(o, d, s, t)
    ensures var u := t.(counters := counters, sampler := sampler, collectorsStarted := started, collectorsStopped := stopped);
      Prepares(o, d, s, u) && u.log == t.log
  {
    hide Legal, PastOf;
  }

  /** The same collectors are held, and the same have been started and stopped as a pair. */
  predicate SameHold(s: Loop, t: Loop) {
    && t.counters == s.counters
    && t.sampler == s.sampler
    && t.collectorsStarted == s.collectorsStarted
    && t.collectorsStopped == s.collectorsStopped
  }

  predicate Collects(a: Action) {
    a.StartedCounters? || a.StartedSampler? || a.StoppedCounters? || a.StoppedSampler?
  }

  function UsedAfter(u: Used, a: Action): Used {
    if a.StartedCounters? then u.(countersOn := true)
    else if a.StartedSampler? then u.(samplerOn := true)
    else if a.StoppedCounters? then u.(countersOff := true)
    else u.(samplerOff := true)
  }

  lemma CollectorAction(o: Options, d: nat, s: Loop, a: Action)
    requires Legal(o, d, s.log) && Allowed(o, d, PastOf(s.log), a) && Collects(a)
    ensures Prepares(o, d, s, Did(s, a)) && SameHold(s, Did(s, a))
    ensures PastOf(Did(s, a).log).used == UsedAfter(PastOf(s.log).used, a)
  {
    hide Legal, PastOf, Allowed;
    DidKeeps(o, d, s, a);
  }

  /** Nothing has been started or stopped yet, except perhaps a collector. */
  predicate Untouched(p: Past) {
    !p.started && p.stops.first.None? && p.stops.owed.None?
  }

  lemma StartingCounters(o: Options, d: nat, s: Loop, i: CollectorInput)
    requires Legal(o, d, s.log) && Untouched(PastOf(s.log)) && PastOf(s.log).used == UNUSED
    ensures Prepares(o, d, s, StartCounters(s, i).state) && SameHold(s, StartCounters(s, i).state)
    ensures PastOf(StartCounters(s, i).state.log).used == UNUSED.(countersOn := s.counters)
  {
    if s.counters {
      hide Legal, PastOf, Prepares, SameHold, Did;
      CollectorAction(o, d, s, StartedCounters);
    }
  }

  lemma StartingSampler(o: Options, d: nat, s: Loop, i: CollectorInput)
    requires Legal(o, d, s.log) && Untouched(PastOf(s.log))
    requires PastOf(s.log).used == UNUSED.(countersOn := s.counters)
    ensures var r := StartSampler(o, s, i).state;
      Prepares(o, d, s, r) && r.counters == s.counters && r.collectorsStopped == s.collectorsStopped
    ensures var r := StartSampler(o, s, i).state;
      PastOf(r.log).used == Used(s.counters, false, s.sampler, false, false, false) && (r.sampler ==> s.sampler)
  {
    if s.sampler {
      hide Legal, PastOf, Prepares, StartSampler, Did;
      CollectorAction(o, d, s, StartedSampler);
      SamplerStarts(o, s, i);
      PreparesSampler(o, d, s, Did(s, StartedSampler), !i.samplerFails);
    }
  }

  lemma SamplerStarts(o: Options, s: Loop, i: CollectorInput)
    requires s.sampler
    ensures StartSampler(o, s, i).state == Did(s, StartedSampler).(sampler := !i.samplerFails)
  {
  }

  lemma PreparesSampler(o: Options, d: nat, s: Loop, t: Loop, sampler: bool)
    requires Prepares(o, d, s, t)
    ensures Prepares(o, d, s, t.(sampler := sampler))
  {
    hide Legal, PastOf;
  }

  lemma PreparesKeeps(o: Options, d: nat, s: Loop, t: Loop)
    requires Prepares(o, d, s, t)
    ensures Legal(o, d, t.log)
    ensures Untouched(PastOf(s.log)) ==> Untouched(PastOf(t.log))
    ensures Ended(PastOf(s.log)) ==> Ended(PastOf(t.log))
    ensures PastOf(s.log).stops == PastOf(t.log).stops
  {
    hide Legal, PastOf;
  }

  lemma Starting(o: Options, d: nat, s: Loop, i: CollectorInput)
    requires Legal(o, d, s.log) && Untouched(PastOf(s.log)) && PastOf(s.log).used == UNUSED
    ensures var r := StartCollectors(o, s, i); Prepares(o, d, s, r.state) && !r.Left?
    ensures var r := StartCollectors(o, s, i); r.Continue? ==> Metered(r.state, PastOf(r.state.log).used)
  {
    hide Legal, PastOf, Prepares, StartCounters, StartSampler;
    StartingCounters(o, d, s, i);
    var a := StartCounters(s, i);
    NeverLeft(o, s, i);
    if a.Throw? {
      assert StartCollectors(o, s, i) == a;
    } else {
      PreparesKeeps(o, d, s, a.state);
      StartingSampler(o, d, a.state, i);
      NeverLeft(o, a.state, i);
      var b := StartSampler(o, a.state, i);
      PreparesInTurn(o, d, s, a.state, b.state);
      PreparesFlags(o, d, s, b.state, b.state.counters, b.state.sampler, true, b.state.collectorsStopped);
    }
  }

  lemma NeverLeft(o: Options, s: Loop, i: CollectorInput)
    ensures !StartCounters(s, i).Left? && !StartSampler(o, s, i).Left?
    ensures !StopCounters(o, s, i).Left? && !StopSampler(o, s, i).Left?
  {
  }

  lemma StoppingCounters(o: Options, d: nat, s: Loop, i: CollectorInput)
    requires Legal(o, d, s.log) && Ended(PastOf(s.log)) && PastOf(s.log).stops.owed.None? && PastOf(s.log).used.Kept()
    requires (s.counters ==> PastOf(s.log).used.countersOn) && !PastOf(s.log).used.countersOff
    ensures var r := StopCounters(o, s, i).state;
      && Prepares(o, d, s, r)
      && r.sampler == s.sampler
      && r.collectorsStarted == s.collectorsStarted
      && (r.counters ==> s.counters)
    ensures var u := PastOf(StopCounters(o, s, i).state.log).used;
      u == PastOf(s.log).used.(countersOff := s.counters)
  {
    if s.counters {
      hide Legal, PastOf, Prepares;
      var t := Did(s, StoppedCounters);
      CollectorAction(o, d, s, StoppedCounters);
      PreparesFlags(o, d, s, t, false, t.sampler, t.collectorsStarted, t.collectorsStopped);
    }
  }

  lemma StoppingSampler(o: Options, d: nat, s: Loop, i: CollectorInput)
    requires Legal(o, d, s.log) && Ended(PastOf(s.log)) && PastOf(s.log).stops.owed.None? && PastOf(s.log).used.Kept()
    requires (s.sampler ==> PastOf(s.log).used.samplerOn) && !PastOf(s.log).used.samplerOff
    ensures var r := StopSampler(o, s, i).state;
      && Prepares(o, d, s, r)
      && r.counters == s.counters
      && r.collectorsStarted == s.collectorsStarted
      && (r.sampler ==> s.sampler)
    ensures var u := PastOf(StopSampler(o, s, i).state.log).used;
      u == PastOf(s.log).used.(samplerOff := s.sampler)
  {
    if s.sampler {
      hide Legal, PastOf, Prepares;
      var t := Did(s, StoppedSampler);
      CollectorAction(o, d, s, StoppedSampler);
      PreparesFlags(o, d, s, t, t.counters, false, t.collectorsStarted, t.collectorsStopped);
    }
  }

  lemma PreparesSelf(o: Options, d: nat, s: Loop)
    requires Legal(o, d, s.log)
    ensures Prepares(o, d, s, s)
  {
    hide Legal, PastOf;
  }

  /** Stopping the collectors, when what they measure has ended. */
  lemma StoppingSound(o: Options, d: nat, s: Loop, i: CollectorInput)
    requires Legal(o, d, s.log) && Metered(s, PastOf(s.log).used)
    requires Ended(PastOf(s.log)) && PastOf(s.log).stops.owed.None?
    ensures var r := StopCollectors(o, s, i); Prepares(o, d, s, r.state) && !r.Left?
    ensures var r := StopCollectors(o, s, i); r.Continue? ==> Metered(r.state, PastOf(r.state.log).used)
  {
    hide Legal, PastOf, Prepares, StopCounters, StopSampler, Ended;
    if !s.collectorsStarted || s.collectorsStopped {
      PreparesSelf(o, d, s);
    } else {
      StoppingCounters(o, d, s, i);
      NeverLeft(o, s, i);
      var a := StopCounters(o, s, i);
      if a.Throw? {
        assert StopCollectors(o, s, i) == a;
      } else {
        PreparesKeeps(o, d, s, a.state);
        StoppingSampler(o, d, a.state, i);
        NeverLeft(o, a.state, i);
        var b := StopSampler(o, a.state, i);
        PreparesInTurn(o, d, s, a.state, b.state);
        PreparesFlags(o, d, s, b.state, b.state.counters, b.state.sampler, b.state.collectorsStarted, true);
      }
    }
  }

  // ----- the phases of an iteration

  /** The workload is launched only while nothing is being stopped. */
  lemma LaunchSound(o: Options, d: nat, low: int, now: int, s: Loop, i: Input)
    requires Follows(o, d, low, now, s) && o.service.Some? && !s.workload && !s.stopping
    ensures Sound(o, d, low, now, BeginWorkload(o, s, i))
  {
    hide Legal, PastOf, StartCollectors;
    Starting(o, d, s, i.start);
    var a := StartCollectors(o, s, i.start);
    if a.Continue? && !i.spawnFails {
      DidKeeps(o, d, a.state, StartedWorkload);
    }
  }

  /** The workload is gone and the target may be told to stop, for the first or the second time. */
  predicate Dismissed(o: Options, d: nat, low: int, now: int, s: Loop) {
    var p := PastOf(s.log);
    && Accounted(o, d, s)
    && Metered(s, p.used)
    && !s.workload
    && o.service.Some?
    && low <= now <= low + d
    && p.stops.killed == s.sentKill
    && MayGrant(p)
    && (p.stops.first.None? ==> !p.stops.killed)
    && (p.stops.first.Some? ==> p.stops.first.value <= now)
    && (p.stops.first.Some? && !p.stops.killed ==>
          now + o.service.value.shutdownGrace <= p.stops.first.value + Patience(o, d) - d)
  }

  /** A stop signal to the target and a deadline. */
  lemma SignalThenGrant(o: Options, d: nat, s: Loop, signal: Signal, now: int, until: int)
    requires Accounted(o, d, s) && !s.workload && MayGrant(PastOf(s.log)) && signal != Kill
    ensures var t := Grant(Did(s, Sent(Target, signal, now)), until);
      && Accounted(o, d, t)
      && PastOf(t.log) == After(After(PastOf(s.log), Sent(Target, signal, now)), Deadline(until))
      && PastOf(t.log).used == PastOf(s.log).used
  {
    hide Legal, PastOf, Patience, After, Told, MaySignal, Allowed, MayGrant;
    var p := PastOf(s.log);
    RunsIfHeld(o, d, s);
    MayTell(o, d, p, signal, now);
    SignalAllowed(o, d, p, signal, now);
    GrantAllowed(o, d, p, signal, now, until);
    DidKeeps(o, d, s, Sent(Target, signal, now));
    DidKeeps(o, d, Did(s, Sent(Target, signal, now)), Deadline(until));
  }

  lemma MayTell(o: Options, d: nat, p: Past, signal: Signal, now: int)
    requires p.target == HELD && MayGrant(p) && signal != Kill
    ensures MaySignal(o, d, p, signal, now)
  {
  }

  lemma GrantAllowed(o: Options, d: nat, p: Past, signal: Signal, now: int, until: int)
    requires MayGrant(p) && signal != Kill && !WorkloadRuns(p) && p.stops.owed.None?
    ensures var q := After(p, Sent(Target, signal, now));
      Allowed(o, d, q, Deadline(until))
    ensures var r := After(After(p, Sent(Target, signal, now)), Deadline(until));
      && r.target == p.target && r.workload == p.workload && r.started == p.started && r.used == p.used
      && r.stops.owed.None?
  {
    hide Patience;
  }

  lemma DismissedStops(o: Options, d: nat, low: int, now: int, s: Loop, t: Loop)
    requires Dismissed(o, d, low, now, s) && !t.workload
    requires PastOf(t.log) ==
             After(After(PastOf(s.log), Sent(Target, Term, now)), Deadline(now + o.service.value.shutdownGrace))
    ensures Stopping(o, d, low, now, t, PastOf(t.log))
    ensures PastOf(t.log).stops.killed == PastOf(s.log).stops.killed
  {
    hide Legal, PastOf, Metered;
  }

  /** SIGTERM to the target and a new deadline. */
  lemma TerminateSound(o: Options, d: nat, low: int, now: int, s: Loop, i: Input)
    requires Dismissed(o, d, low, now, s) && i.now == now
    ensures Sound(o, d, low, now, Terminate(s, i, o.service.value.shutdownGrace))
  {
    hide Legal, PastOf, Stopping, Running, Patience;
    if !i.termFails {
      var a := s.(stopping := true);
      var t := Grant(Did(a, Sent(Target, Term, now)), now + o.service.value.shutdownGrace);
      SignalThenGrant(o, d, a, Term, now, now + o.service.value.shutdownGrace);
      DismissedStops(o, d, low, now, s, t);
    }
  }

  lemma AbandonSound(o: Options, d: nat, low: int, now: int, s: Loop, i: Input)
    requires Follows(o, d, low, now, s) && o.service.Some? && !s.workload && !s.stopping && i.now == now
    ensures Sound(o, d, low, now, AbandonService(s, i, o.service.value.shutdownGrace))
  {
    hide Legal, PastOf, Sound;
    TerminateSound(o, d, low, now, s.(failure := Some(ReadinessTimedOut)), i);
  }

  lemma ServicePhaseSound(o: Options, d: nat, startedAt: int, low: int, now: int, s: Loop, i: Input)
    requires Follows(o, d, low, now, s) && i.now == now
    ensures Sound(o, d, low, now, ServicePhase(o, startedAt, s, i))
  {
    hide Legal, PastOf, Follows, BeginWorkload, AbandonService;
    if o.service.Some? && !s.workload && !s.stopping {
      LaunchSound(o, d, low, now, s, i);
      AbandonSound(o, d, low, now, s, i);
    }
  }

  lemma CollectedLog(o: Options, d: nat, s: Loop, status: Status)
    requires Accounted(o, d, s) && s.workload && PastOf(s.log).stops.owed.None?
    ensures var t := CollectWorkload(s, status);
      && Legal(o, d, t.log)
      && PastOf(t.log) == PastOf(s.log).(workload := DONE, seen := Some(status))
      && SameHold(s, t) && t.sentKill == s.sentKill && !t.workload
  {
    hide Legal, PastOf, Patience;
    DidKeeps(o, d, s, Reaped(Workload, status));
    DidKeeps(o, d, Did(s, Reaped(Workload, status)), GroupKilled(Workload));
  }

  lemma CollectedDismisses(o: Options, d: nat, low: int, now: int, s: Loop, t: Loop, status: Status)
    requires Follows(o, d, low, now, s) && s.workload
    requires Legal(o, d, t.log) && PastOf(t.log) == PastOf(s.log).(workload := DONE, seen := Some(status))
    requires SameHold(s, t) && t.sentKill == s.sentKill && !t.workload
    ensures Dismissed(o, d, low, now, t)
  {
    hide Legal, PastOf;
  }

  lemma OwesNothing(o: Options, d: nat, low: int, now: int, s: Loop)
    requires Follows(o, d, low, now, s)
    ensures Accounted(o, d, s) && PastOf(s.log).stops.owed.None?
  {
    hide Legal, PastOf, Accounted;
  }

  /** Reaping the workload and releasing its guard. */
  lemma WorkloadCollected(o: Options, d: nat, low: int, now: int, s: Loop, status: Status)
    requires Follows(o, d, low, now, s) && s.workload
    ensures Dismissed(o, d, low, now, CollectWorkload(s, status)) && Ended(PastOf(CollectWorkload(s, status).log))
  {
    hide Legal, PastOf, Follows, Dismissed, CollectWorkload, Accounted, SameHold;
    OwesNothing(o, d, low, now, s);
    CollectedLog(o, d, s, status);
    CollectedDismisses(o, d, low, now, s, CollectWorkload(s, status), status);
  }

  lemma DismissedPrepared(o: Options, d: nat, low: int, now: int, s: Loop, t: Loop)
    requires Dismissed(o, d, low, now, s) && Prepares(o, d, s, t)
    ensures Accounted(o, d, t)
    ensures Metered(t, PastOf(t.log).used) ==> Dismissed(o, d, low, now, t)
  {
    hide Legal, PastOf, Patience;
  }

  lemma DismissedAlike(o: Options, d: nat, low: int, now: int, s: Loop, t: Loop)
    requires Dismissed(o, d, low, now, s)
    requires t.log == s.log && t.workload == s.workload && t.sentKill == s.sentKill && SameHold(s, t)
    ensures Dismissed(o, d, low, now, t)
  {
    hide Legal, PastOf, Patience;
  }

  lemma JudgeAlike(s: Loop, status: Status)
    ensures Judge(s, status).log == s.log
    ensures Judge(s, status).workload == s.workload
    ensures Judge(s, status).sentKill == s.sentKill
    ensures SameHold(s, Judge(s, status))
  {
    match WorkloadVerdict(status)
    case None => assert Judge(s, status) == s.(workloadCompleted := true, managedStop := true);
    case Some(lifecycle) => assert Judge(s, status) == s.(failure := Some(lifecycle));
  }

  lemma DismissedOwesNothing(o: Options, d: nat, low: int, now: int, s: Loop)
    requires Dismissed(o, d, low, now, s)
    ensures Legal(o, d, s.log) && Metered(s, PastOf(s.log).used) && PastOf(s.log).stops.owed.None?
  {
    hide Legal, PastOf;
  }

  lemma EndWorkloadSound(o: Options, d: nat, low: int, now: int, s: Loop, i: Input, status: Status)
    requires Follows(o, d, low, now, s) && s.workload && o.service.Some? && i.now == now
    ensures Sound(o, d, low, now, EndWorkload(o, s, i, status))
  {
    hide Legal, PastOf, Follows, Dismissed, Judge, StopCollectors, CollectWorkload, SameHold, Metered, Prepares, Accounted;
    WorkloadCollected(o, d, low, now, s, status);
    var t := CollectWorkload(s, status);
    DismissedOwesNothing(o, d, low, now, t);
    StoppingSound(o, d, t, i.stop);
    var a := StopCollectors(o, t, i.stop);
    DismissedPrepared(o, d, low, now, t, a.state);
    if a.Throw? {
      assert EndWorkload(o, s, i, status) == a;
    } else {
      var b := Judge(a.state, status);
      JudgeAlike(a.state, status);
      DismissedAlike(o, d, low, now, a.state, b);
      TerminateSound(o, d, low, now, b, i);
    }
  }

  lemma WorkloadPhaseSound(o: Options, d: nat, low: int, now: int, s: Loop, i: Input)
    requires Follows(o, d, low, now, s) && i.now == now
    ensures Sound(o, d, low, now, WorkloadPhase(o, s, i))
  {
    hide Legal, PastOf, EndWorkload;
    if s.workload && o.service.Some? && i.workloadWait.Ended? {
      EndWorkloadSound(o, d, low, now, s, i, i.workloadWait.status);
    }
  }

  /** The owed signal to the workload. */
  lemma WorkloadSignalled(o: Options, d: nat, s: Loop, signal: Signal, now: int)
    requires Accounted(o, d, s) && s.workload && PastOf(s.log).stops.owed == Some(Sent(Workload, signal, now))
    ensures var t := Did(s, Sent(Workload, signal, now));
      && Accounted(o, d, t)
      && SameStanding(s, t) && SameHold(s, t)
      && PastOf(t.log) == After(PastOf(s.log), Sent(Workload, signal, now))
  {
    hide Legal, PastOf, Patience;
    DidKeeps(o, d, s, Sent(Workload, signal, now));
  }

  lemma TargetSignalled(o: Options, d: nat, s: Loop, signal: Signal, now: int)
    requires Accounted(o, d, s) && PastOf(s.log).stops.owed.None? && MaySignal(o, d, PastOf(s.log), signal, now)
    ensures var t := Did(s, Sent(Target, signal, now));
      && Accounted(o, d, t)
      && SameStanding(s, t) && SameHold(s, t)
      && PastOf(t.log) == After(PastOf(s.log), Sent(Target, signal, now))
      && PastOf(t.log).stops == Told(PastOf(s.log).stops, signal, now, s.workload)
  {
    hide Legal, PastOf, MaySignal, Allowed, After, Told;
    var p := PastOf(s.log);
    SignalAllowed(o, d, p, signal, now);
    SignalTold(p, signal, now);
    DidKeeps(o, d, s, Sent(Target, signal, now));
  }

  lemma SignalAllowed(o: Options, d: nat, p: Past, signal: Signal, now: int)
    requires p.stops.owed.None? && MaySignal(o, d, p, signal, now)
    ensures Allowed(o, d, p, Sent(Target, signal, now))
  {
  }

  lemma SignalTold(p: Past, signal: Signal, now: int)
    ensures var q := After(p, Sent(Target, signal, now));
      q.target == p.target && q.workload == p.workload && q.started == p.started && q.used == p.used
    ensures After(p, Sent(Target, signal, now)).stops == Told(p.stops, signal, now, WorkloadRuns(p))
    ensures p.stops.owed.None? && !WorkloadRuns(p) ==> Told(p.stops, signal, now, false).owed.None?
  {
  }

  /** The past after a signal to the target and, if it runs, to the workload. */
  function BothTold(p: Past, signal: Signal, at: int): Past {
    p.(stops := Told(p.stops, signal, at, false))
  }

  lemma BothToldIs(p: Past, signal: Signal, at: int)
    requires p.stops.owed.None?
    ensures !WorkloadRuns(p) ==> After(p, Sent(Target, signal, at)) == BothTold(p, signal, at)
    ensures After(After(p, Sent(Target, signal, at)), Sent(Workload, signal, at)) == BothTold(p, signal, at)
    ensures WorkloadRuns(p) ==> After(p, Sent(Target, signal, at)).stops.owed == Some(Sent(Workload, signal, at))
  {
  }

  /** A signal to the target, and to the workload if it is there. */
  lemma SignalAllSound(o: Options, d: nat, s: Loop, i: Input, signal: Signal)
    requires Accounted(o, d, s) && PastOf(s.log).stops.owed.None? && MaySignal(o, d, PastOf(s.log), signal, i.now)
    ensures !SignalAll(s, i, signal).Left?
    ensures Accounted(o, d, SignalAll(s, i, signal).state)
    ensures var r := SignalAll(s, i, signal); r.Continue? ==>
      && SameStanding(s, r.state) && SameHold(s, r.state)
      && PastOf(r.state.log) == BothTold(PastOf(s.log), signal, i.now)
  {
    hide Legal, PastOf, Patience, After, MaySignal, BothTold;
    var p := PastOf(s.log);
    BothToldIs(p, signal, i.now);
    RunsIfHeld(o, d, s);
    hide Accounted;
    if !i.stopSignalFails {
      var a := Did(s, Sent(Target, signal, i.now));
      TargetSignalled(o, d, s, signal, i.now);
      if a.workload {
        WorkloadSignalled(o, d, a, signal, i.now);
      }
    }
  }

  lemma RunsIfHeld(o: Options, d: nat, s: Loop)
    requires Accounted(o, d, s)
    ensures WorkloadRuns(PastOf(s.log)) == s.workload
  {
    hide Legal, PastOf;
  }

  /** After the first stop signal the grace is granted. */
  lemma GraceGranted(o: Options, d: nat, low: int, now: int, s: Loop, a: Loop, signal: Signal)
    requires Follows(o, d, low, now, s) && !s.stopping && signal != Kill
    requires Accounted(o, d, a) && SameHold(s, a) && a.stopping && a.workload == s.workload && a.sentKill == s.sentKill
    requires PastOf(a.log) == BothTold(PastOf(s.log), signal, now)
    ensures Follows(o, d, now, now, Grant(a, now + o.terminationGrace))
  {
    hide Legal, PastOf;
    DidKeeps(o, d, a, Deadline(now + o.terminationGrace));
  }

  lemma MayStop(o: Options, d: nat, low: int, now: int, s: Loop, signal: Signal)
    requires Follows(o, d, low, now, s) && !s.stopping && signal != Kill
    ensures MaySignal(o, d, PastOf(s.log), signal, now)
  {
    hide Legal, PastOf, Patience;
  }

  /** Interruption and timeout: the first stop signal, with the termination grace. */
  lemma GraceSound(o: Options, d: nat, low: int, now: int, s: Loop, flagged: Loop, i: Input, signal: Signal)
    requires Follows(o, d, low, now, s) && !s.stopping && i.now == now && signal != Kill
    requires flagged.stopping && flagged.log == s.log && flagged.workload == s.workload && flagged.sentKill == s.sentKill
    requires SameHold(s, flagged)
    ensures Sound(o, d, now, now, SignalWithGrace(o, flagged, i, signal))
  {
    assert Accounted(o, d, flagged) by {
      hide Legal, PastOf;
    }
    hide Legal, PastOf, SignalAll, Follows, Accounted, MaySignal, BothTold;
    OwesNothing(o, d, low, now, s);
    MayStop(o, d, low, now, s, signal);
    SignalAllSound(o, d, flagged, i, signal);
    var a := SignalAll(flagged, i, signal);
    if a.Continue? {
      GraceGranted(o, d, low, now, s, a.state, signal);
    }
  }

  /** Escalation: only at or after the deadline, and soon after it. */
  lemma KillSound(o: Options, d: nat, low: int, now: int, s: Loop, i: Input)
    requires Follows(o, d, low, now, s) && s.stopping && !s.sentKill && i.now == now
    requires s.graceDeadline.Some? && now >= s.graceDeadline.value
    ensures Sound(o, d, now, now, KillAll(s, i))
  {
    hide Legal, PastOf, SignalAll;
    SignalAllSound(o, d, s, i, Kill);
  }

  lemma StopPhaseSound(o: Options, d: nat, startedAt: int, low: int, now: int, s: Loop, i: Input)
    requires Follows(o, d, low, now, s) && i.now == now
    ensures Sound(o, d, now, now, StopPhase(o, startedAt, s, i))
  {
    hide Legal, PastOf, SignalWithGrace, KillAll;
    if !s.stopping {
      GraceSound(o, d, low, now, s, s.(interrupted := true, stopping := true), i, Received(i.receivedSignal));
      GraceSound(o, d, low, now, s, s.(timedOut := true, stopping := true), i, Term);
    } else if !s.sentKill && s.graceDeadline.Some? && now >= s.graceDeadline.value {
      KillSound(o, d, low, now, s, i);
    }
  }

  // ----- whole runs

  /** The target has been reaped by the loop; its guard has not acted. */
  predicate Finishing(o: Options, d: nat, s: Loop) {
    var p := PastOf(s.log);
    && Legal(o, d, s.log)
    && Metered(s, p.used)
    && p.target == Child(true, false)
    && p.workload == (if p.started && !s.workload then DONE else HELD)
    && (s.workload ==> p.started)
    && p.stops.owed.None?
  }

  predicate StaysSound(o: Options, d: nat, now: int, r: StepResult) {
    match r
    case Continue(s) => Follows(o, d, now, now, s)
    case Throw(s, _) => Accounted(o, d, s)
    case Left(s, _) => Finishing(o, d, s)
  }

  predicate Polls(i: Input) {
    i.wait.StillRunning? || i.wait.WaitInterrupted?
  }

  /** The clock never goes back, and the loop never sleeps longer than d. */
  predicate Paced(d: nat, last: int, inputs: seq<Input>)
    decreases |inputs|
  {
    inputs == [] || !Polls(inputs[0]) ||
    (last <= inputs[0].now <= last + d && Paced(d, inputs[0].now, inputs[1..]))
  }

  /** The last reading of the clock. */
  function Clock(last: int, inputs: seq<Input>): int
    decreases |inputs|
  {
    if inputs == [] then last else Clock(inputs[0].now, inputs[1..])
  }

  lemma LeavingSound(o: Options, d: nat, last: int, s: Loop, status: Status)
    requires Follows(o, d, last, last, s)
    ensures Finishing(o, d, Did(s, Reaped(Target, status)))
  {
    OwesNothing(o, d, last, last, s);
    hide Legal, PastOf, Patience;
    DidKeeps(o, d, s, Reaped(Target, status));
  }

  lemma FollowsLater(o: Options, d: nat, last: int, now: int, s: Loop)
    requires Follows(o, d, last, last, s) && last <= now <= last + d
    ensures Follows(o, d, last, now, s)
  {
    hide Legal, PastOf, Accounted;
  }

  lemma IterateSound(o: Options, d: nat, startedAt: int, last: int, s: Loop, i: Input)
    requires Follows(o, d, last, last, s)
    requires Polls(i) ==> last <= i.now <= last + d
    ensures StaysSound(o, d, i.now, Iterate(o, startedAt, s, i))
  {
    hide Legal, PastOf, Accounted, Stopping, Running, ServicePhase, WorkloadPhase, StopPhase;
    if i.wait.Ended? {
      LeavingSound(o, d, last, s, i.wait.status);
    } else if Polls(i) {
      FollowsLater(o, d, last, i.now, s);
      ServicePhaseSound(o, d, startedAt, last, i.now, s, i);
      var a := ServicePhase(o, startedAt, s, i);
      if a.Continue? {
        WorkloadPhaseSound(o, d, last, i.now, a.state, i);
        var b := WorkloadPhase(o, a.state, i);
        if b.Continue? {
          StopPhaseSound(o, d, startedAt, last, i.now, b.state, i);
        }
      }
    }
  }

  lemma IterateContinues(o: Options, startedAt: int, s: Loop, i: Input)
    requires Iterate(o, startedAt, s, i).Continue?
    ensures Polls(i)
  {
  }

  lemma {:induction false} IterationsSound(o: Options, d: nat, startedAt: int, last: int, s: Loop, inputs: seq<Input>)
    requires Follows(o, d, last, last, s) && Paced(d, last, inputs)
    ensures StaysSound(o, d, Clock(last, inputs), Iterations(o, startedAt, s, inputs))
    decreases |inputs|
  {
    hide Follows, Accounted, Finishing, Iterate;
    if inputs != [] {
      IterateSound(o, d, startedAt, last, s, inputs[0]);
      var r := Iterate(o, startedAt, s, inputs[0]);
      if r.Continue? {
        IterateContinues(o, startedAt, s, inputs[0]);
        IterationsSound(o, d, startedAt, inputs[0].now, r.state, inputs[1..]);
      }
    }
  }

  lemma NothingYet(o: Options, d: nat)
    ensures PastOf([]) == NOTHING && Legal(o, d, [])
  {
  }

  lemma InitiallySound(o: Options, d: nat, startedAt: int, counters: bool, sampler: bool, i: CollectorInput)
    ensures StaysSound(o, d, startedAt, Begin(o, counters, sampler, i)) && !Begin(o, counters, sampler, i).Left?
  {
    hide StartCollectors, Legal, PastOf;
    NothingYet(o, d);
    Starting(o, d, Initial(counters, sampler), i);
  }

  // ----- endings

  /** How a run ends: the log is legal, every process started has been waited for, and its guard
      has acted. */
  predicate Concluded(o: Options, d: nat, log: seq<Action>) {
    var p := PastOf(log);
    && Legal(o, d, log)
    && p.target == DONE
    && p.workload == (if p.started then DONE else HELD)
    && p.stops.owed.None?
  }

  const STALE: seq<Action> := [PidKilled(Target), Waited(Target)]

  /** The exception: the guard of the target kills and awaits a process that has been reaped. */
  predicate Overrun(o: Options, d: nat, log: seq<Action>) {
    |log| >= 2 && log[|log| - 2..] == STALE && Concluded(o, d, log[..|log| - 2])
  }

  /** The final stop of the collectors throws. */
  predicate FinalStopFails(o: Options, s: Loop, f: FinishInput) {
    && o.requirePerf
    && s.collectorsStarted
    && !s.collectorsStopped
    && ((s.counters && f.stop.countersFail) || (s.sampler && f.stop.samplerFails))
  }

  lemma DestroyKeeps(o: Options, d: nat, s: Loop, process: Process)
    requires Legal(o, d, s.log)
    requires if process == Target then PastOf(s.log).target == HELD && PastOf(s.log).stops.owed.None?
             else WorkloadRuns(PastOf(s.log))
    ensures Legal(o, d, Destroy(s, process).log)
    ensures PastOf(Destroy(s, process).log) ==
            if process == Target then PastOf(s.log).(target := DONE)
            else PastOf(s.log).(workload := DONE, stops := PastOf(s.log).stops.(owed := None))
  {
    hide Legal, PastOf, Patience;
    var a := Did(s, GroupKilled(process));
    DidKeeps(o, d, s, GroupKilled(process));
    DidKeeps(o, d, a, PidKilled(process));
    DidKeeps(o, d, Did(a, PidKilled(process)), Waited(process));
  }

  /** Destroying the collectors changes nothing else. */
  lemma DropKeeps(o: Options, d: nat, s: Loop)
    requires Legal(o, d, s.log) && PastOf(s.log).stops.owed.None? && PastOf(s.log).used.Kept()
    ensures Legal(o, d, DropCollectors(s).log)
    ensures var p, q := PastOf(s.log), PastOf(DropCollectors(s).log);
      q == p.(used := p.used.(countersGone := s.counters, samplerGone := s.sampler))
  {
    hide Legal, PastOf, Patience;
    if s.sampler {
      DidKeeps(o, d, s, DroppedSampler);
    }
    var a := if s.sampler then Did(s, DroppedSampler) else s;
    if s.counters {
      DidKeeps(o, d, a, DroppedCounters);
    }
  }

  lemma UnwindConcludes(o: Options, d: nat, s: Loop)
    requires Accounted(o, d, s)
    ensures Concluded(o, d, Unwind(s))
  {
    hide Legal, PastOf, Patience, Destroy, DropCollectors;
    var a := if s.workload then Destroy(s, Workload) else s;
    if s.workload {
      DestroyKeeps(o, d, s, Workload);
    }
    DropKeeps(o, d, a);
    DestroyKeeps(o, d, DropCollectors(a), Target);
  }

  /** What the death of the target leaves for the final stop and the guard of the target. */
  predicate Bereft(o: Options, d: nat, s: Loop) {
    var p := PastOf(s.log);
    && Legal(o, d, s.log)
    && p.used.Kept()
    && p.target == Child(true, false)
    && p.workload == (if p.started then DONE else HELD)
    && p.stops.owed.None?
  }

  lemma BlameAlike(s: Loop, failure: Lifecycle)
    ensures Blame(s, failure).log == s.log && SameHold(s, Blame(s, failure))
    ensures Blame(s, failure).workload == s.workload
  {
  }

  lemma DestroyHolds(s: Loop, process: Process)
    ensures SameHold(s, Destroy(s, process)) && SameHold(s, Destroy(s, process).(workload := false))
    ensures Destroy(s, process).(workload := false).log == Destroy(s, process).log
  {
  }

  lemma DropBereaves(o: Options, d: nat, s: Loop)
    requires Finishing(o, d, s)
    ensures Bereft(o, d, DropWorkload(s)) && SameHold(s, DropWorkload(s))
    ensures Metered(DropWorkload(s), PastOf(DropWorkload(s).log).used)
  {
    hide Legal, PastOf, Patience, Destroy, Blame;
    if s.workload {
      var b := Blame(s, ServiceDiedDuringWorkload);
      BlameAlike(s, ServiceDiedDuringWorkload);
      DestroyKeeps(o, d, b, Workload);
      DestroyHolds(b, Workload);
    }
  }

  lemma GoneBereaves(o: Options, d: nat, s: Loop)
    requires Finishing(o, d, s)
    ensures Bereft(o, d, ServiceGone(o, s)) && SameHold(s, ServiceGone(o, s))
    ensures Metered(ServiceGone(o, s), PastOf(ServiceGone(o, s).log).used)
  {
    hide Legal, PastOf, Blame, DropWorkload;
    DropBereaves(o, d, s);
    BlameAlike(DropWorkload(s), ServiceDiedBeforeWorkload);
  }

  lemma StopThrows(o: Options, s: Loop, f: FinishInput)
    ensures StopCollectors(o, s, f.stop).Throw? <==> FinalStopFails(o, s, f)
  {
  }

  lemma BereftPrepared(o: Options, d: nat, s: Loop, t: Loop)
    requires Bereft(o, d, s) && Prepares(o, d, s, t)
    ensures Bereft(o, d, t)
  {
    hide Legal, PastOf;
  }

  lemma ReleaseConcludes(o: Options, d: nat, s: Loop)
    requires Bereft(o, d, s)
    ensures Concluded(o, d, DropCollectors(Release(s, Target)).log)
  {
    hide Legal, PastOf, Patience, DropCollectors;
    DidKeeps(o, d, s, GroupKilled(Target));
    DropKeeps(o, d, Release(s, Target));
  }

  lemma DestroyOverruns(o: Options, d: nat, s: Loop)
    requires Bereft(o, d, s)
    ensures Overrun(o, d, Destroy(DropCollectors(s), Target).log)
  {
    hide Legal, PastOf, Patience, DropCollectors;
    DropKeeps(o, d, s);
    var t := DropCollectors(s);
    DidKeeps(o, d, t, GroupKilled(Target));
    EndsStale(o, d, t);
  }

  lemma EndsStale(o: Options, d: nat, s: Loop)
    requires Concluded(o, d, Release(s, Target).log)
    ensures Overrun(o, d, Destroy(s, Target).log)
  {
    hide Concluded;
    var log := Release(s, Target).log;
    assert Destroy(s, Target).log == log + [PidKilled(Target)] + [Waited(Target)];
    assert (log + [PidKilled(Target)] + [Waited(Target)])[..|log|] == log;
    assert (log + [PidKilled(Target)] + [Waited(Target)])[|log|..] == STALE;
  }

  lemma BereftEnded(o: Options, d: nat, s: Loop)
    requires Bereft(o, d, s)
    ensures Legal(o, d, s.log) && Ended(PastOf(s.log)) && PastOf(s.log).stops.owed.None?
  {
    hide Legal, PastOf;
  }

  lemma SameHoldFails(o: Options, s: Loop, t: Loop, f: FinishInput)
    requires SameHold(s, t)
    ensures FinalStopFails(o, s, f) == FinalStopFails(o, t, f)
  {
  }

  lemma FinishConcludes(o: Options, d: nat, s: Loop, status: Status, f: FinishInput)
    requires Finishing(o, d, s)
    ensures var log := Finish(o, s, status, f).log;
      if FinalStopFails(o, s, f) then Overrun(o, d, log) else Concluded(o, d, log)
  {
    hide Concluded, Overrun, Bereft, Finishing, Legal, PastOf, Prepares, SameHold, Metered, FinalStopFails, Report, DropCollectors,
      ServiceGone, StopCollectors, Release, Destroy;
    GoneBereaves(o, d, s);
    var a := ServiceGone(o, s);
    BereftEnded(o, d, a);
    StoppingSound(o, d, a, f.stop);
    var b := StopCollectors(o, a, f.stop);
    StopThrows(o, a, f);
    SameHoldFails(o, s, a, f);
    BereftPrepared(o, d, a, b.state);
    if b.Throw? {
      DestroyOverruns(o, d, b.state);
    } else {
      ReleaseConcludes(o, d, b.state);
    }
  }

  /** The run's loop ends with the target's exit, and the final stop of the collectors throws. */
  predicate StopsBadly(o: Options, startedAt: int, counters: bool, sampler: bool, start: CollectorInput,
                       inputs: seq<Input>, f: FinishInput) {
    var first := Begin(o, counters, sampler, start);
    && first.Continue?
    && var r := Iterations(o, startedAt, first.state, inputs);
    r.Left? && FinalStopFails(o, r.state, f)
  }

  /** Every run, whatever the system answers, keeps to the rules and ends concluded, except exactly
      the runs whose final stop throws: those end with the guard of the target killing and awaiting
      a process that has already been reaped. */
  lemma RunIsLegal(o: Options, d: nat, startedAt: int, counters: bool, sampler: bool, start: CollectorInput,
                   inputs: seq<Input>, f: FinishInput)
    requires Paced(d, startedAt, inputs)
    ensures var run := Run(o, startedAt, counters, sampler, start, inputs, f);
      run.Some? ==>
        if StopsBadly(o, startedAt, counters, sampler, start, inputs, f) then Overrun(o, d, run.value.log)
        else Concluded(o, d, run.value.log)
  {
    hide Follows, Accounted, Finishing, Concluded, Overrun, Iterations, Finish, Begin, Unwind, FinalStopFails;
    InitiallySound(o, d, startedAt, counters, sampler, start);
    var first := Begin(o, counters, sampler, start);
    if first.Throw? {
      UnwindConcludes(o, d, first.state);
    } else {
      IterationsSound(o, d, startedAt, startedAt, first.state, inputs);
      var r := Iterations(o, startedAt, first.state, inputs);
      if r.Throw? {
        UnwindConcludes(o, d, r.state);
      } else if r.Left? {
        FinishConcludes(o, d, r.state, r.status, f);
      }
    }
  }

  /** A run that is still in its loop long enough after the first stop signal has sent the kill. */
  lemma KillComes(o: Options, d: nat, startedAt: int, counters: bool, sampler: bool, start: CollectorInput,
                  inputs: seq<Input>)
    requires Paced(d, startedAt, inputs) && Begin(o, counters, sampler, start).Continue?
    requires var r := Iterations(o, startedAt, Begin(o, counters, sampler, start).state, inputs);
      && r.Continue?
      && PastOf(r.state.log).stops.first.Some?
      && Clock(startedAt, inputs) > PastOf(r.state.log).stops.first.value + Patience(o, d) - d
    ensures PastOf(Iterations(o, startedAt, Begin(o, counters, sampler, start).state, inputs).state.log).stops.killed
  {
    hide Legal, PastOf, Accounted, Iterations, Clock, Begin;
    InitiallySound(o, d, startedAt, counters, sampler, start);
    IterationsSound(o, d, startedAt, startedAt, Begin(o, counters, sampler, start).state, inputs);
  }
}
