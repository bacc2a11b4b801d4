/** Descriptors and mappings that objects own and release (src/perf/sample_collector.hpp:13-36 and
    src/perf/perf_sampler.cpp:39-49), and the log of what was asked of the system. */
module Resources {
  import opened Results

  datatype Event =
    | Opened(fd: nat)
    | Closed(fd: nat)
    | MappedRing(address: nat)
    | Unmapped(address: nat)
    | Enabled(fd: nat)
    | Disabled(fd: nat)
    | WorkerStarted
    | WorkerJoined

  datatype Worker = Idle | Running | Joined

  datatype Held = Held(open: multiset<nat>, mapped: multiset<nat>, enabled: set<nat>, worker: Worker)

  const NOTHING_HELD: Held := Held(multiset{}, multiset{}, {}, Idle)

  /** The rules: only what is held is released, never under a running worker, and no descriptor that
      was enabled is closed before the kernel was asked to disable it; the worker runs once, and
      rings are enabled only while it runs. */
  function Note(h: Held, e: Event): Option<Held> {
    match e
    case Opened(fd) => Some(h.(open := h.open + multiset{fd}))
    case Closed(fd) =>
      if fd in h.open && fd !in h.enabled && h.worker != Running
      then Some(h.(open := h.open - multiset{fd})) else None
    case MappedRing(address) => Some(h.(mapped := h.mapped + multiset{address}))
    case Unmapped(address) =>
      if address in h.mapped && h.worker != Running
      then Some(h.(mapped := h.mapped - multiset{address})) else None
    case Enabled(fd) => if fd in h.open && h.worker == Running then Some(h.(enabled := h.enabled + {fd})) else None
    case Disabled(fd) => if fd in h.open then Some(h.(enabled := h.enabled - {fd})) else None
    case WorkerStarted => if h.worker == Idle then Some(h.(worker := Running)) else None
    case WorkerJoined => if h.worker == Running then Some(h.(worker := Joined)) else None
  }

  /** What is held after a log, or None if the log breaks a rule. */
  function Replay(log: seq<Event>): Option<Held> {
    if log == [] then Some(NOTHING_HELD)
    else
      var before := Replay(log[..|log| - 1]);
      if before.None? then None else Note(before.value, log[|log| - 1])
  }

  lemma ReplayMore(log: seq<Event>, e: Event)
    ensures Replay(log + [e]) == if Replay(log).None? then None else Note(Replay(log).value, e)
  {
    assert (log + [e])[..|log|] == log;
  }

  /** Everything acquired was released exactly once, and by the rules. */
  predicate Clean(log: seq<Event>) {
    var end := Replay(log);
    && end.Some?
    && end.value.open == multiset{}
    && end.value.mapped == multiset{}
    && end.value.enabled == {}
    && end.value.worker != Running
  }

  // ----- owners

  ghost function One(x: Option<nat>): multiset<nat> {
    if x.Some? then multiset{x.value} else multiset{}
  }

  /** Owns a descriptor, or none; the program writes none as -1. */
  class UniqueFd {
    var fd: Option<nat>

    constructor (fd: Option<nat>)
      ensures this.fd == fd
    {
      this.fd := fd;
    }

    /** The destructor. */
    method Destroy(ghost log: seq<Event>) returns (ghost log': seq<Event>)
      requires Replay(log).Some? && (fd.Some? ==> Note(Replay(log).value, Closed(fd.value)).Some?)
      modifies this
      ensures fd == None
      ensures Replay(log') == if old(fd).Some? then Note(Replay(log).value, Closed(old(fd).value)) else Replay(log)
    {
      log' := log;
      if fd.Some? {
        ReplayMore(log, Closed(fd.value));
        log' := log + [Closed(fd.value)];
        fd := None;
      }
    }
  }

  /** One ring: its descriptor, a UniqueFd, and its mapping; the program writes none as -1 and MAP_FAILED. */
  class PerfRing {
    var fd: Option<nat>
    var mapping: Option<nat>

    constructor ()
      ensures fd == None && mapping == None
    {
      fd, mapping := None, None;
    }

    /** Move assignment to the descriptor: takes over what the other owns and closes what was owned before. */
    method AssignDescriptor(other: UniqueFd, ghost log: seq<Event>) returns (ghost log': seq<Event>)
      requires Replay(log).Some? && (fd.Some? ==> Note(Replay(log).value, Closed(fd.value)).Some?)
      modifies this`fd, other
      ensures fd == old(other.fd) && other.fd == None
      ensures Replay(log') == if old(fd).Some? then Note(Replay(log).value, Closed(old(fd).value)) else Replay(log)
    {
      var previous := new UniqueFd(fd);
      fd, other.fd := other.fd, None;
      log' := previous.Destroy(log);
    }

    /** The destructor: unmaps what is mapped, then closes what is open. */
    method Destroy(ghost log: seq<Event>) returns (ghost log': seq<Event>)
      requires Replay(log).Some? && Replay(log).value.worker != Running
      requires One(mapping) <= Replay(log).value.mapped && One(fd) <= Replay(log).value.open
      requires fd.Some? ==> fd.value !in Replay(log).value.enabled
      modifies this
      ensures mapping == None && fd == None
      ensures var h := Replay(log).value;
        Replay(log') == Some(h.(mapped := h.mapped - One(old(mapping)), open := h.open - One(old(fd))))
    {
      ghost var h := Replay(log).value;
      assert h.mapped - multiset{} == h.mapped && h.open - multiset{} == h.open;
      log' := log;
      if mapping.Some? {
        ReplayMore(log, Unmapped(mapping.value));
        log' := log + [Unmapped(mapping.value)];
        mapping := None;
      }
      if fd.Some? {
        ReplayMore(log', Closed(fd.value));
        log' := log' + [Closed(fd.value)];
        fd := None;
      }
    }
  }

  // ----- several rings

  /** What a ring owns. */
  datatype Ownership = Ownership(fd: Option<nat>, mapping: Option<nat>)

  ghost function Owned(ring: PerfRing): Ownership
    reads ring
  {
    Ownership(ring.fd, ring.mapping)
  }

  ghost function FdsOf(os: seq<Ownership>): multiset<nat> {
    if os == [] then multiset{} else One(os[0].fd) + FdsOf(os[1..])
  }

  ghost function MappingsOf(os: seq<Ownership>): multiset<nat> {
    if os == [] then multiset{} else One(os[0].mapping) + MappingsOf(os[1..])
  }

  lemma {:induction false} OwnershipMore(os: seq<Ownership>, o: Ownership)
    ensures FdsOf(os + [o]) == FdsOf(os) + One(o.fd)
    ensures MappingsOf(os + [o]) == MappingsOf(os) + One(o.mapping)
  {
    if os == [] {
      assert [] + [o] == [o] && [o][1..] == [];
    } else {
      assert (os + [o])[1..] == os[1..] + [o];
      OwnershipMore(os[1..], o);
    }
  }

  lemma {:induction false} OwnedWithin(os: seq<Ownership>, i: nat)
    requires i < |os|
    ensures One(os[i].fd) <= FdsOf(os) && One(os[i].mapping) <= MappingsOf(os)
  {
    if i > 0 {
      OwnedWithin(os[1..], i - 1);
    }
  }

  predicate Distinct(rings: seq<PerfRing>) {
    forall i, j :: 0 <= i < j < |rings| ==> rings[i] != rings[j]
  }

  /** What the rings own, one by one. */
  ghost predicate Owning(rings: seq<PerfRing>, os: seq<Ownership>)
    reads rings
  {
    |os| == |rings| && forall i :: 0 <= i < |rings| ==> Owned(rings[i]) == os[i]
  }

  /** Destroying a vector of rings, which no worker uses and none of which is enabled. */
  method DestroyAll(rings: seq<PerfRing>, ghost os: seq<Ownership>, ghost log: seq<Event>, ghost extra: multiset<nat>)
      returns (ghost log': seq<Event>)
    requires Distinct(rings) && Owning(rings, os)
    requires Replay(log).Some? && Replay(log).value.worker != Running && Replay(log).value.enabled == {}
    requires Replay(log).value.open == FdsOf(os) + extra && Replay(log).value.mapped == MappingsOf(os)
    modifies rings
    ensures Replay(log') == Some(Replay(log).value.(open := extra, mapped := multiset{}))
  {
    log' := log;
    ghost var h := Replay(log).value;
    assert os[0..] == os;
    for i := 0 to |rings|
      invariant forall j :: i <= j < |rings| ==> Owned(rings[j]) == os[j]
      invariant Replay(log') == Some(h.(open := FdsOf(os[i..]) + extra, mapped := MappingsOf(os[i..])))
    {
      OwnedWithin(os[i..], 0);
      assert os[i..][1..] == os[i + 1..];
      log' := rings[i].Destroy(log');
      FirstReleased(os[i..], extra);
    }
    assert os[|rings|..] == [];
    assert multiset{} + extra == extra;
  }

  lemma FirstReleased(os: seq<Ownership>, extra: multiset<nat>)
    requires os != []
    ensures FdsOf(os) + extra - One(os[0].fd) == FdsOf(os[1..]) + extra
    ensures MappingsOf(os) - One(os[0].mapping) == MappingsOf(os[1..])
  {
  }

  /** Only rings from i on are still enabled. */
  ghost predicate EnabledFrom(os: seq<Ownership>, i: nat, enabled: set<nat>) {
    i <= |os| && forall fd :: fd in enabled ==> fd in FdsOf(os[i..])
  }

  lemma DisablesNext(os: seq<Ownership>, i: nat, open: multiset<nat>, enabled: set<nat>)
    requires i < |os| && os[i].fd.Some? && FdsOf(os) <= open
    requires EnabledFrom(os, i, enabled)
    ensures os[i].fd.value in open && EnabledFrom(os, i + 1, enabled - {os[i].fd.value})
  {
    OwnedWithin(os, i);
    assert os[i].fd.value in One(os[i].fd);
    assert os[i..][1..] == os[i + 1..];
  }

  lemma ReplayDisabled(log: seq<Event>, h: Held, enabled: set<nat>, fd: nat)
    requires Replay(log) == Some(h.(enabled := enabled)) && fd in h.open
    ensures Replay(log + [Disabled(fd)]) == Some(h.(enabled := enabled - {fd}))
  {
    ReplayMore(log, Disabled(fd));
  }

  /** One of the first n requests fails. */
  predicate Refuses(answers: seq<bool>, n: nat) {
    exists i :: 0 <= i < n && i < |answers| && !answers[i]
  }

  /** Asking the kernel to disable every ring, whether it does so or not. */
  method DisableAll(rings: seq<PerfRing>, answers: seq<bool>, ghost os: seq<Ownership>, ghost log: seq<Event>)
      returns (failed: bool, ghost log': seq<Event>)
    requires Owning(rings, os) && forall i :: 0 <= i < |os| ==> os[i].fd.Some?
    requires Replay(log).Some? && FdsOf(os) <= Replay(log).value.open
    requires forall fd :: fd in Replay(log).value.enabled ==> fd in FdsOf(os)
    ensures failed == Refuses(answers, |rings|)
    ensures Replay(log') == Some(Replay(log).value.(enabled := {}))
  {
    failed, log' := false, log;
    ghost var h := Replay(log).value;
    assert !Refuses(answers, 0);
    ghost var enabled := h.enabled;
    assert os[0..] == os;
    assert EnabledFrom(os, 0, enabled);
    assert forall i :: 0 <= i < |rings| ==> rings[i].fd == os[i].fd && os[i].fd.Some?;
    hide Replay, FdsOf, Refuses, Note, EnabledFrom, Owning, Owned;
    for i := 0 to |rings|
      invariant failed == Refuses(answers, i)
      invariant Replay(log') == Some(h.(enabled := enabled))
      invariant EnabledFrom(os, i, enabled)
    {
      var fd := rings[i].fd.value;
      DisablesNext(os, i, h.open, enabled);
      ReplayDisabled(log', h, enabled, fd);
      log' := log' + [Disabled(fd)];
      enabled := enabled - {fd};
      RefusesNext(answers, i);
      if i < |answers| && !answers[i] {
        failed := true;
      }
    }
    NoneEnabled(os, enabled);
  }

  lemma NoneEnabled(os: seq<Ownership>, enabled: set<nat>)
    requires EnabledFrom(os, |os|, enabled)
    ensures enabled == {}
  {
    assert os[|os|..] == [];
  }

  lemma RefusesNext(answers: seq<bool>, i: nat)
    ensures Refuses(answers, i + 1) == (Refuses(answers, i) || (i < |answers| && !answers[i]))
  {
  }
}
