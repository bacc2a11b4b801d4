/** What the protocol of a run means, in terms of positions in its log
    (src/process/process_runner.cpp:122-144, 665-709, 760-871). */
module RunGuarantees {
  import opened Results
  import opened ProcessRunner
  import opened RunnerProtocol

  /** A kill or a stop signal of the loop to the target. */
  predicate IsKill(a: Action) {
    a.Sent? && a.to == Target && a.signal == Kill
  }

  predicate IsStop(a: Action) {
    a.Sent? && a.to == Target && a.signal != Kill
  }

  predicate Awaits(a: Action, process: Process) {
    (a.Reaped? || a.Waited?) && a.process == process
  }

  predicate Starts(a: Action) {
    a == StartedCounters || a == StartedSampler || a == StartedWorkload
  }

  predicate FirstStopAt(log: seq<Action>, i: int) {
    0 <= i < |log| && IsStop(log[i]) && forall h :: 0 <= h < i ==> !IsStop(log[h])
  }

  /** Entry j sets the deadline in force just before entry k. */
  predicate DeadlineInForce(log: seq<Action>, k: nat, j: int) {
    0 <= j < k <= |log| && log[j].Deadline? && forall h :: j < h < k ==> !log[h].Deadline?
  }

  lemma {:induction false} LegalAt(o: Options, d: nat, log: seq<Action>, k: nat)
    requires Legal(o, d, log) && k < |log|
    ensures Legal(o, d, log[..k]) && Allowed(o, d, PastOf(log[..k]), log[k])
  {
    if k < |log| - 1 {
      var front := log[..|log| - 1];
      LegalAt(o, d, front, k);
      assert front[..k] == log[..k];
    }
  }

  // ----- from the summary back to the log

  lemma StopAfter(p: Past, a: Action)
    ensures p.stops.first.Some? ==> After(p, a).stops.first == p.stops.first
    ensures p.stops.first.None? && After(p, a).stops.first.Some? ==>
      IsStop(a) && After(p, a).stops.first == Some(a.at)
    ensures After(p, a).stops.first.None? ==> p.stops.first.None? && !IsStop(a)
  {
  }

  lemma DeadlineAfter(p: Past, a: Action)
    ensures After(p, a).stops.deadline == if a.Deadline? then Some(a.until) else p.stops.deadline
  {
  }

  lemma {:induction false} NoStopYet(log: seq<Action>, h: nat)
    requires PastOf(log).stops.first.None? && h < |log|
    ensures !IsStop(log[h])
  {
    hide After;
    StopAfter(PastOf(log[..|log| - 1]), log[|log| - 1]);
    if h < |log| - 1 {
      NoStopYet(log[..|log| - 1], h);
    }
  }

  lemma {:induction false} FirstStopSeen(log: seq<Action>) returns (i: nat)
    requires PastOf(log).stops.first.Some?
    ensures FirstStopAt(log, i) && log[i].at == PastOf(log).stops.first.value
  {
    assert log != [];
    var front, a := log[..|log| - 1], log[|log| - 1];
    assert PastOf(log) == After(PastOf(front), a);
    hide PastOf, After;
    StopAfter(PastOf(front), a);
    if PastOf(front).stops.first.Some? {
      i := FirstStopSeen(front);
    } else {
      i := |log| - 1;
      forall h | 0 <= h < |front|
        ensures !IsStop(log[h])
      {
        NoStopYet(front, h);
      }
    }
  }

  lemma {:induction false} DeadlineSeen(log: seq<Action>) returns (j: nat)
    requires PastOf(log).stops.deadline.Some?
    ensures DeadlineInForce(log, |log|, j) && log[j].until == PastOf(log).stops.deadline.value
  {
    assert log != [];
    var front, a := log[..|log| - 1], log[|log| - 1];
    assert PastOf(log) == After(PastOf(front), a);
    hide PastOf, After;
    DeadlineAfter(PastOf(front), a);
    if a.Deadline? {
      j := |log| - 1;
    } else {
      j := DeadlineSeen(front);
    }
  }

  /** What has been done stays done. */
  predicate Remembers(p: Past, a: Action) {
    && (a == StartedCounters ==> p.used.countersOn)
    && (a == StartedSampler ==> p.used.samplerOn)
    && (a == StoppedCounters ==> p.used.countersOff)
    && (a == StoppedSampler ==> p.used.samplerOff)
    && (a == DroppedCounters ==> p.used.countersGone)
    && (a == DroppedSampler ==> p.used.samplerGone)
    && (a == StartedWorkload ==> p.started)
    && (Awaits(a, Target) ==> p.target.gone)
    && (Awaits(a, Workload) ==> p.workload.gone)
    && (a == GroupKilled(Target) ==> p.target.guarded)
    && (a == GroupKilled(Workload) ==> p.workload.guarded)
    && (IsKill(a) ==> p.stops.killed)
    && (IsStop(a) ==> p.stops.first.Some?)
  }

  predicate UsedGrows(u: Used, v: Used) {
    && (u.countersOn ==> v.countersOn) && (u.samplerOn ==> v.samplerOn)
    && (u.countersOff ==> v.countersOff) && (u.samplerOff ==> v.samplerOff)
    && (u.countersGone ==> v.countersGone) && (u.samplerGone ==> v.samplerGone)
  }

  predicate ChildGrows(c: Child, d: Child) {
    (c.gone ==> d.gone) && (c.guarded ==> d.guarded)
  }

  predicate StopsGrow(s: Stops, t: Stops) {
    (s.killed ==> t.killed) && (s.first.Some? ==> t.first.Some?)
  }

  /** Marks stay. */
  predicate Grows(p: Past, q: Past) {
    && UsedGrows(p.used, q.used)
    && (p.started ==> q.started)
    && ChildGrows(p.target, q.target)
    && ChildGrows(p.workload, q.workload)
    && StopsGrow(p.stops, q.stops)
  }

  /** What an action does to the collectors' part of the summary. */
  lemma UsedAfterIs(p: Past, a: Action)
    ensures After(p, a).used ==
            if Collects(a) then UsedAfter(p.used, a)
            else if a.DroppedCounters? then p.used.(countersGone := true)
            else if a.DroppedSampler? then p.used.(samplerGone := true)
            else p.used
  {
  }

  lemma UsedAfterGrows(p: Past, a: Action)
    ensures UsedGrows(p.used, After(p, a).used)
  {
    hide After;
    UsedAfterIs(p, a);
  }

  lemma ChildrenAfterGrow(p: Past, a: Action)
    ensures ChildGrows(p.target, After(p, a).target) && ChildGrows(p.workload, After(p, a).workload)
  {
  }

  lemma StopsAfterGrow(p: Past, a: Action)
    ensures (p.started ==> After(p, a).started) && StopsGrow(p.stops, After(p, a).stops)
  {
  }

  lemma AfterGrows(p: Past, a: Action)
    ensures Grows(p, After(p, a))
  {
    hide After, UsedGrows, ChildGrows, StopsGrow;
    UsedAfterGrows(p, a);
    ChildrenAfterGrow(p, a);
    StopsAfterGrow(p, a);
  }

  lemma RemembersMore(p: Past, a: Action, b: Action)
    ensures Remembers(p, a) ==> Remembers(After(p, b), a)
  {
    hide After, IsKill, IsStop, Awaits;
    AfterGrows(p, b);
  }

  lemma RemembersItself(p: Past, a: Action)
    ensures Remembers(After(p, a), a)
  {
  }

  lemma {:induction false} Remembered(log: seq<Action>, j: nat)
    requires j < |log|
    ensures Remembers(PastOf(log), log[j])
  {
    var front, a := log[..|log| - 1], log[|log| - 1];
    assert PastOf(log) == After(PastOf(front), a);
    hide PastOf, Remembers, After;
    RemembersMore(PastOf(front), log[j], a);
    RemembersItself(PastOf(front), a);
    if j < |log| - 1 {
      Remembered(front, j);
    }
  }

  predicate HasAwaited(log: seq<Action>, process: Process) {
    exists k :: 0 <= k < |log| && Awaits(log[k], process)
  }

  /** Every mark in the summary has its action in the log. */
  predicate Witnessed(p: Past, log: seq<Action>) {
    && (p.target.gone ==> HasAwaited(log, Target))
    && (p.workload.gone ==> HasAwaited(log, Workload))
    && (p.target.guarded ==> GroupKilled(Target) in log)
    && (p.workload.guarded ==> GroupKilled(Workload) in log)
    && (p.started ==> StartedWorkload in log)
    && (p.used.countersOn ==> StartedCounters in log)
    && (p.used.samplerOn ==> StartedSampler in log)
    && (p.used.countersOff ==> StoppedCounters in log)
    && (p.used.samplerOff ==> StoppedSampler in log)
  }

  lemma HasAwaitedMore(log: seq<Action>, a: Action, process: Process)
    requires HasAwaited(log, process) || Awaits(a, process)
    ensures HasAwaited(log + [a], process)
  {
    if k :| 0 <= k < |log| && Awaits(log[k], process) {
      assert (log + [a])[k] == log[k];
    } else {
      assert (log + [a])[|log|] == a;
    }
  }

  lemma UsedMarkAfter(p: Past, a: Action)
    ensures After(p, a).used.countersOn ==> p.used.countersOn || a == StartedCounters
    ensures After(p, a).used.samplerOn ==> p.used.samplerOn || a == StartedSampler
    ensures After(p, a).used.countersOff ==> p.used.countersOff || a == StoppedCounters
    ensures After(p, a).used.samplerOff ==> p.used.samplerOff || a == StoppedSampler
  {
    hide After;
    UsedAfterIs(p, a);
  }

  lemma MarkAfter(p: Past, a: Action)
    ensures After(p, a).target.gone ==> p.target.gone || Awaits(a, Target)
    ensures After(p, a).workload.gone ==> p.workload.gone || Awaits(a, Workload)
    ensures After(p, a).target.guarded ==> p.target.guarded || a == GroupKilled(Target)
    ensures After(p, a).workload.guarded ==> p.workload.guarded || a == GroupKilled(Workload)
    ensures After(p, a).started ==> p.started || a == StartedWorkload
  {
  }

  lemma WitnessedMore(p: Past, q: Past, log: seq<Action>, a: Action)
    requires Witnessed(p, log) && q == After(p, a)
    ensures Witnessed(q, log + [a])
  {
    hide After, HasAwaited, Awaits;
    MarkAfter(p, a);
    UsedMarkAfter(p, a);
    if q.target.gone {
      HasAwaitedMore(log, a, Target);
    }
    if q.workload.gone {
      HasAwaitedMore(log, a, Workload);
    }
  }

  lemma {:induction false} AllWitnessed(log: seq<Action>)
    ensures Witnessed(PastOf(log), log)
  {
    if log != [] {
      var front, a := log[..|log| - 1], log[|log| - 1];
      assert PastOf(log) == After(PastOf(front), a) && log == front + [a];
      hide PastOf, After, Witnessed;
      AllWitnessed(front);
      WitnessedMore(PastOf(front), PastOf(log), front, a);
    }
  }

  // ----- endings

  predicate Ending(o: Options, d: nat, log: seq<Action>) {
    Concluded(o, d, log) || Overrun(o, d, log)
  }

  /** The part of an ending's log that keeps to the rules: all of it, or all but the last two
      entries. */
  lemma LawfulPart(o: Options, d: nat, log: seq<Action>) returns (n: nat)
    requires Ending(o, d, log)
    ensures n <= |log| && Concluded(o, d, log[..n])
    ensures forall k :: n <= k < |log| ==> log[k] == PidKilled(Target) || log[k] == Waited(Target)
  {
    hide Concluded;
    if Overrun(o, d, log) {
      n := |log| - 2;
      assert forall k :: n <= k < |log| ==> log[k] == log[n..][k - n];
    } else {
      n := |log|;
      assert log[..n] == log;
    }
  }

  // ----- the guarantees

  /** The loop's kill of the target: no other, and within the bounds that the graces set. */
  ghost predicate KillBounded(o: Options, d: nat, log: seq<Action>, k: nat)
    requires k < |log| && IsKill(log[k])
  {
    && (forall h :: 0 <= h < |log| && IsKill(log[h]) ==> h == k)
    && (exists i :: FirstStopAt(log, i) && i < k && log[i].at <= log[k].at <= log[i].at + Patience(o, d))
    && (exists j :: DeadlineInForce(log, k, j) && log[j].until <= log[k].at)
  }

  predicate Drops(a: Action) {
    a.DroppedCounters? || a.DroppedSampler?
  }

  /** Two actions of which a run does at most one, or not in this order. */
  predicate Exclusive(a: Action, b: Action) {
    || (a == b && (Collects(a) || Drops(a) || a == StartedWorkload || a.GroupKilled?))
    || (a == DroppedCounters && (b == StartedCounters || b == StoppedCounters))
    || (a == DroppedSampler && (b == StartedSampler || b == StoppedSampler))
    || (IsKill(a) && IsKill(b))
    || (IsStop(a) && Starts(b))
    || OverFor(a, b, Target)
    || OverFor(a, b, Workload)
    || (Awaits(a, Workload) && (b == PidKilled(Workload) || b == Waited(Workload)))
  }

  /** After a process has been waited for, or its guard has acted, the loop neither signals nor
      reaps it. */
  predicate OverFor(a: Action, b: Action, process: Process) {
    && (Awaits(a, process) || a == GroupKilled(process))
    && ((b.Sent? && b.to == process) || (b.Reaped? && b.process == process))
  }

  lemma ForbiddenAfter(o: Options, d: nat, p: Past, a: Action, b: Action)
    requires Remembers(p, a) && Allowed(o, d, p, b)
    ensures !Exclusive(a, b)
  {
    hide Patience;
  }

  lemma NeverBoth(o: Options, d: nat, log: seq<Action>, j: nat, k: nat)
    requires Legal(o, d, log) && j < k < |log|
    ensures !Exclusive(log[j], log[k])
  {
    hide Legal, PastOf, Exclusive, Remembers, Allowed;
    LegalAt(o, d, log, k);
    Remembered(log[..k], j);
    ForbiddenAfter(o, d, PastOf(log[..k]), log[j], log[k]);
  }

  /** In no ending does an exclusive pair occur. */
  predicate NothingTwiceIn(log: seq<Action>) {
    forall j, k :: 0 <= j < k < |log| ==> !Exclusive(log[j], log[k])
  }

  lemma EndingNothingTwice(o: Options, d: nat, log: seq<Action>)
    requires Ending(o, d, log)
    ensures NothingTwiceIn(log)
  {
    var n := LawfulPart(o, d, log);
    assert Legal(o, d, log[..n]);
    forall j, k | 0 <= j < k < |log|
      ensures !Exclusive(log[j], log[k])
    {
      if k < n {
        NeverBoth(o, d, log[..n], j, k);
      }
    }
  }

  lemma KillWithinBounds(o: Options, d: nat, log: seq<Action>, k: nat)
    requires Legal(o, d, log) && k < |log| && IsKill(log[k])
    ensures exists i :: FirstStopAt(log, i) && i < k && log[i].at <= log[k].at <= log[i].at + Patience(o, d)
    ensures exists j :: DeadlineInForce(log, k, j) && log[j].until <= log[k].at
  {
    LegalAt(o, d, log, k);
    hide Legal, PastOf, Patience;
    var i := FirstStopSeen(log[..k]);
    assert FirstStopAt(log, i);
    var j := DeadlineSeen(log[..k]);
    assert DeadlineInForce(log, k, j);
  }

  lemma KillsExclude(a: Action, b: Action)
    requires IsKill(a) && IsKill(b)
    ensures Exclusive(a, b) && Exclusive(b, a)
  {
  }

  lemma BoundsExtend(o: Options, d: nat, log: seq<Action>, n: nat, k: nat)
    requires k < n <= |log| && IsKill(log[k])
    requires exists i :: FirstStopAt(log[..n], i) && i < k && log[..n][i].at <= log[k].at <= log[..n][i].at + Patience(o, d)
    requires exists j :: DeadlineInForce(log[..n], k, j) && log[..n][j].until <= log[k].at
    requires forall h :: 0 <= h < |log| && IsKill(log[h]) ==> h == k
    ensures KillBounded(o, d, log, k)
  {
    hide Patience;
    var core := log[..n];
    var i :| FirstStopAt(core, i) && i < k && core[i].at <= core[k].at <= core[i].at + Patience(o, d);
    assert FirstStopAt(log, i);
    var j :| DeadlineInForce(core, k, j) && core[j].until <= core[k].at;
    assert DeadlineInForce(log, k, j);
  }

  lemma OnlyKill(log: seq<Action>, k: nat)
    requires NothingTwiceIn(log) && k < |log| && IsKill(log[k])
    ensures forall h :: 0 <= h < |log| && IsKill(log[h]) ==> h == k
  {
    hide Exclusive;
    forall h | 0 <= h < |log| && IsKill(log[h])
      ensures h == k
    {
      KillsExclude(log[h], log[k]);
    }
  }

  lemma EndingKillBounded(o: Options, d: nat, log: seq<Action>, k: nat)
    requires Ending(o, d, log) && k < |log| && IsKill(log[k])
    ensures KillBounded(o, d, log, k)
  {
    EndingNothingTwice(o, d, log);
    OnlyKill(log, k);
    var n := LawfulPart(o, d, log);
    hide Patience, PastOf;
    assert Legal(o, d, log[..n]) && log[..n][k] == log[k];
    hide Legal, Ending, Concluded, NothingTwiceIn;
    KillWithinBounds(o, d, log[..n], k);
    BoundsExtend(o, d, log, n, k);
  }

  /** The workload may be signalled just before entry k: it has been started, nobody has waited for
      it, and its guard has not acted. */
  predicate WorkloadHeldAt(log: seq<Action>, k: nat)
    requires k <= |log|
  {
    StartedWorkload in log[..k] && !HasAwaited(log[..k], Workload) && GroupKilled(Workload) !in log[..k]
  }

  /** Entry k, a signal to the target, is passed on to a running workload, unless the run gives up
      there and the guard of the workload kills its group. */
  predicate PassedOn(log: seq<Action>, k: nat)
    requires k < |log| && log[k].Sent?
  {
    k + 1 < |log| && (log[k + 1] == Sent(Workload, log[k].signal, log[k].at) || log[k + 1] == GroupKilled(Workload))
  }

  lemma HeldRuns(log: seq<Action>, k: nat)
    requires k <= |log| && WorkloadHeldAt(log, k)
    ensures WorkloadRuns(PastOf(log[..k]))
  {
    hide PastOf, HasAwaited;
    var h :| 0 <= h < k && log[..k][h] == StartedWorkload;
    Remembered(log[..k], h);
    AllWitnessed(log[..k]);
  }

  lemma OwedAfter(log: seq<Action>, k: nat)
    requires k < |log| && log[k].Sent? && log[k].to == Target && WorkloadRuns(PastOf(log[..k]))
    ensures PastOf(log[..k + 1]).stops.owed == Some(Sent(Workload, log[k].signal, log[k].at))
  {
    assert log[..k + 1] == log[..k] + [log[k]];
    PastOfMore(log[..k], log[k]);
    hide PastOf;
  }

  lemma EndingPassesOn(o: Options, d: nat, log: seq<Action>, k: nat)
    requires Ending(o, d, log) && k < |log|
    requires log[k].Sent? && log[k].to == Target && WorkloadHeldAt(log, k)
    ensures PassedOn(log, k)
  {
    var n := LawfulPart(o, d, log);
    var core := log[..n];
    assert core[..k] == log[..k] && WorkloadHeldAt(core, k);
    HeldRuns(core, k);
    OwedAfter(core, k);
    assert core[..n] == core;
    if k + 1 < n {
      LegalAt(o, d, core, k + 1);
    }
  }

  /** Entry k is the loop's stop of a collector: it has been started before, and something it measures has ended. */
  lemma CollectorsBracketed(o: Options, d: nat, log: seq<Action>, k: nat)
    requires Ending(o, d, log) && k < |log| && (log[k] == StoppedCounters || log[k] == StoppedSampler)
    ensures (if log[k] == StoppedCounters then StartedCounters else StartedSampler) in log[..k]
    ensures HasAwaited(log[..k], Workload) || HasAwaited(log[..k], Target)
  {
    var n := LawfulPart(o, d, log);
    var core := log[..n];
    assert core[..k] == log[..k] && core[k] == log[k];
    LegalAt(o, d, core, k);
    AllWitnessed(core[..k]);
  }

  /** No zombie: the target has been waited for and its guard has acted, and the same holds of the
      workload if and only if it was started. */
  predicate AllReaped(log: seq<Action>) {
    && HasAwaited(log, Target)
    && GroupKilled(Target) in log
    && (StartedWorkload in log <==> HasAwaited(log, Workload))
    && (StartedWorkload in log <==> GroupKilled(Workload) in log)
  }

  lemma RemembersAwait(log: seq<Action>, process: Process)
    requires HasAwaited(log, process)
    ensures if process == Target then PastOf(log).target.gone else PastOf(log).workload.gone
  {
    hide PastOf;
    var k :| 0 <= k < |log| && Awaits(log[k], process);
    Remembered(log, k);
  }

  lemma ConcludedReaps(o: Options, d: nat, log: seq<Action>)
    requires Concluded(o, d, log)
    ensures AllReaped(log)
  {
    hide Legal, PastOf, HasAwaited;
    AllWitnessed(log);
    if StartedWorkload in log {
      var k :| 0 <= k < |log| && log[k] == StartedWorkload;
      Remembered(log, k);
    }
    if GroupKilled(Workload) in log {
      var k :| 0 <= k < |log| && log[k] == GroupKilled(Workload);
      Remembered(log, k);
    }
    if HasAwaited(log, Workload) {
      RemembersAwait(log, Workload);
    }
  }

  lemma EndingReaps(o: Options, d: nat, log: seq<Action>)
    requires Ending(o, d, log)
    ensures AllReaped(log)
  {
    var n := LawfulPart(o, d, log);
    hide Concluded, Ending;
    var core, rest := log[..n], log[n..];
    assert log == core + rest;
    assert forall k :: 0 <= k < |rest| ==> rest[k] == log[n + k];
    ConcludedReaps(o, d, core);
    StillReaped(core, rest);
  }

  lemma StillReaped(core: seq<Action>, rest: seq<Action>)
    requires AllReaped(core)
    requires forall k :: 0 <= k < |rest| ==> rest[k] == PidKilled(Target) || rest[k] == Waited(Target)
    ensures AllReaped(core + rest)
  {
    SameAwaits(core, rest, Workload);
    if h :| 0 <= h < |core| && Awaits(core[h], Target) {
      assert Awaits((core + rest)[h], Target);
    }
  }

  lemma SameAwaits(core: seq<Action>, rest: seq<Action>, process: Process)
    requires forall k :: 0 <= k < |rest| ==> !Awaits(rest[k], process)
    ensures HasAwaited(core + rest, process) <==> HasAwaited(core, process)
  {
    var log := core + rest;
    if h :| 0 <= h < |core| && Awaits(core[h], process) {
      assert log[h] == core[h];
    }
    assert forall h :: |core| <= h < |log| ==> log[h] == rest[h - |core|];
    if h :| 0 <= h < |log| && Awaits(log[h], process) {
      assert h < |core|;
      assert core[h] == log[h];
    }
  }

  // ----- over every run

  lemma RunEnds(o: Options, d: nat, startedAt: int, counters: bool, sampler: bool, start: CollectorInput,
                inputs: seq<Input>, f: FinishInput)
    requires Paced(d, startedAt, inputs)
    ensures var run := Run(o, startedAt, counters, sampler, start, inputs, f); run.Some? ==> Ending(o, d, run.value.log)
  {
    hide Run, Legal, PastOf, Paced, Concluded, Overrun, StopsBadly;
    RunIsLegal(o, d, startedAt, counters, sampler, start, inputs, f);
  }

  /** The loop sends SIGKILL to the target at most once, after a stop signal, never before the
      deadline in force, and not later than both graces and two sleeps after the first stop signal. */
  lemma BoundedEscalation(o: Options, d: nat, startedAt: int, counters: bool, sampler: bool, start: CollectorInput,
                          inputs: seq<Input>, f: FinishInput, k: nat)
    requires Paced(d, startedAt, inputs) && Run(o, startedAt, counters, sampler, start, inputs, f).Some?
    requires var log := Run(o, startedAt, counters, sampler, start, inputs, f).value.log; k < |log| && IsKill(log[k])
    ensures KillBounded(o, d, Run(o, startedAt, counters, sampler, start, inputs, f).value.log, k)
  {
    hide Run, Ending, Paced, KillBounded;
    RunEnds(o, d, startedAt, counters, sampler, start, inputs, f);
    EndingKillBounded(o, d, Run(o, startedAt, counters, sampler, start, inputs, f).value.log, k);
  }

  /** Collectors start, stop and are destroyed at most once, and are neither started nor stopped after
      that; the workload starts at most once, nothing starts after a stop signal, each guard acts
      once, and after a process has been waited for, or its guard has
      acted, the loop neither signals nor reaps it; nobody kills or awaits a reaped workload. */
  lemma NothingTwice(o: Options, d: nat, startedAt: int, counters: bool, sampler: bool, start: CollectorInput,
                     inputs: seq<Input>, f: FinishInput)
    requires Paced(d, startedAt, inputs) && Run(o, startedAt, counters, sampler, start, inputs, f).Some?
    ensures NothingTwiceIn(Run(o, startedAt, counters, sampler, start, inputs, f).value.log)
  {
    hide Run, Ending, Paced, NothingTwiceIn;
    RunEnds(o, d, startedAt, counters, sampler, start, inputs, f);
    EndingNothingTwice(o, d, Run(o, startedAt, counters, sampler, start, inputs, f).value.log);
  }

  /** In every ending the target has been waited for and its guard has acted, and the same holds of
      the workload if and only if it was started. */
  lemma EverythingReaped(o: Options, d: nat, startedAt: int, counters: bool, sampler: bool, start: CollectorInput,
                         inputs: seq<Input>, f: FinishInput)
    requires Paced(d, startedAt, inputs) && Run(o, startedAt, counters, sampler, start, inputs, f).Some?
    ensures AllReaped(Run(o, startedAt, counters, sampler, start, inputs, f).value.log)
  {
    hide Run, Ending, Paced, AllReaped;
    RunEnds(o, d, startedAt, counters, sampler, start, inputs, f);
    EndingReaps(o, d, Run(o, startedAt, counters, sampler, start, inputs, f).value.log);
  }

  /** Every stop signal and every kill that the target gets while the workload runs is passed on to
      the workload, as the very next action, unless the run gives up there and the guard of the
      workload kills its group. */
  lemma SignalsPassedOn(o: Options, d: nat, startedAt: int, counters: bool, sampler: bool, start: CollectorInput,
                        inputs: seq<Input>, f: FinishInput, k: nat)
    requires Paced(d, startedAt, inputs) && Run(o, startedAt, counters, sampler, start, inputs, f).Some?
    requires var log := Run(o, startedAt, counters, sampler, start, inputs, f).value.log;
      k < |log| && log[k].Sent? && log[k].to == Target && WorkloadHeldAt(log, k)
    ensures PassedOn(Run(o, startedAt, counters, sampler, start, inputs, f).value.log, k)
  {
    hide Run, Ending, Paced, WorkloadHeldAt, PassedOn;
    RunEnds(o, d, startedAt, counters, sampler, start, inputs, f);
    EndingPassesOn(o, d, Run(o, startedAt, counters, sampler, start, inputs, f).value.log, k);
  }

  /** The loop stops a collector only after it was started and the target or the workload has ended. */
  lemma CollectorsOutlast(o: Options, d: nat, startedAt: int, counters: bool, sampler: bool, start: CollectorInput,
                          inputs: seq<Input>, f: FinishInput, k: nat)
    requires Paced(d, startedAt, inputs) && Run(o, startedAt, counters, sampler, start, inputs, f).Some?
    requires var log := Run(o, startedAt, counters, sampler, start, inputs, f).value.log;
      k < |log| && (log[k] == StoppedCounters || log[k] == StoppedSampler)
    ensures var log := Run(o, startedAt, counters, sampler, start, inputs, f).value.log;
      && (if log[k] == StoppedCounters then StartedCounters else StartedSampler) in log[..k]
      && (HasAwaited(log[..k], Workload) || HasAwaited(log[..k], Target))
  {
    hide Run, Ending, Paced, HasAwaited;
    RunEnds(o, d, startedAt, counters, sampler, start, inputs, f);
    CollectorsBracketed(o, d, Run(o, startedAt, counters, sampler, start, inputs, f).value.log, k);
  }

  // ----- the exception

  /** The process of the target is killed or awaited although somebody has already waited for it. */
  predicate StaleTouch(log: seq<Action>) {
    exists j, k :: 0 <= j < k < |log| && Awaits(log[j], Target) && log[k] in STALE
  }

  lemma ConcludedNotStale(o: Options, d: nat, log: seq<Action>)
    requires Concluded(o, d, log)
    ensures !StaleTouch(log)
  {
    hide PastOf, Legal;
    forall j, k | 0 <= j < k < |log| && Awaits(log[j], Target)
      ensures log[k] !in STALE
    {
      LegalAt(o, d, log, k);
      Remembered(log[..k], j);
    }
  }

  lemma OverrunStale(o: Options, d: nat, log: seq<Action>)
    requires Overrun(o, d, log)
    ensures StaleTouch(log)
  {
    var core := log[..|log| - 2];
    hide Concluded;
    ConcludedReaps(o, d, core);
    var j :| 0 <= j < |core| && Awaits(core[j], Target);
    assert log[|log| - 2] == log[|log| - 2..][0];
    assert Awaits(log[j], Target) && log[|log| - 2] in STALE;
  }

  /** A run kills or awaits the process of the target after it was reaped if and only if its loop
      ended with the target's exit and the final stop of the collectors throws: perf is required,
      the collectors have been started and not stopped, and one that is still held fails. */
  lemma StaleExactly(o: Options, d: nat, startedAt: int, counters: bool, sampler: bool, start: CollectorInput,
                     inputs: seq<Input>, f: FinishInput)
    requires Paced(d, startedAt, inputs) && Run(o, startedAt, counters, sampler, start, inputs, f).Some?
    ensures StaleTouch(Run(o, startedAt, counters, sampler, start, inputs, f).value.log) <==>
            StopsBadly(o, startedAt, counters, sampler, start, inputs, f)
  {
    hide Run, Paced, Concluded, Overrun, StopsBadly, StaleTouch;
    RunIsLegal(o, d, startedAt, counters, sampler, start, inputs, f);
    var log := Run(o, startedAt, counters, sampler, start, inputs, f).value.log;
    if StopsBadly(o, startedAt, counters, sampler, start, inputs, f) {
      OverrunStale(o, d, log);
    } else {
      ConcludedNotStale(o, d, log);
    }
  }

  /** Such a run: perf is required, the target exits at once, and the counters cannot be stopped. */
  lemma StaleRun(f: FinishInput, now: int)
    requires f.stop.countersFail
    ensures var o := Options(None, 5, true, None);
      var gone := Input(Ended(ExitStatus(0)), now, false, CollectorInput(false, false), false, StillRunning,
                        CollectorInput(false, false), 0, false, false, false);
      Run(o, now, true, false, CollectorInput(false, false), [gone], f) ==
      Some(Threw(CollectorError, [StartedCounters] + [Reaped(Target, ExitStatus(0))] + [StoppedCounters]
                                 + [GroupKilled(Target)] + [PidKilled(Target)] + [Waited(Target)]))
  {
    var o := Options(None, 5, true, None);
    var gone := Input(Ended(ExitStatus(0)), now, false, CollectorInput(false, false), false, StillRunning,
                      CollectorInput(false, false), 0, false, false, false);
    assert [] + [StartedCounters] == [StartedCounters];
    var s := Initial(true, false).(log := [StartedCounters], collectorsStarted := true);
    assert Begin(o, true, false, CollectorInput(false, false)) == Continue(s);
    var t := Did(s, Reaped(Target, ExitStatus(0)));
    assert Iterate(o, now, s, gone) == Left(t, ExitStatus(0));
    assert Iterations(o, now, s, [gone]) == Left(t, ExitStatus(0));
    hide Iterations, Begin;
    assert ServiceGone(o, t) == t;
    assert StopCollectors(o, t, f.stop) == Throw(Did(t, StoppedCounters).(counters := false), CollectorError);
  }
}
