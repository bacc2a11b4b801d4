/** Starting the workload: its environment and the search along PATH
    (src/process/process_runner.cpp:428-518). */
module Launcher {
  import opened Results
  import opened Environments

  // ----- splitting at colons

  /** Where the character next occurs, as std::string::find finds it. */
  function Find(s: string, c: char, begin: nat): (r: Option<nat>)
    requires begin <= |s|
    ensures r.Some? ==> begin <= r.value < |s|
    decreases |s| - begin
  {
    if begin == |s| then None
    else if s[begin] == c then Some(begin)
    else Find(s, c, begin + 1)
  }

  /** The pieces between the colons; always at least one, possibly empty. */
  function Split(s: string, c: char): (pieces: seq<string>)
    ensures pieces != []
  {
    if s == "" then [""]
    else
      var rest := Split(s[1..], c);
      if s[0] == c then [""] + rest else [[s[0]] + rest[0]] + rest[1..]
  }

  function Join(pieces: seq<string>, c: char): string
    requires pieces != []
  {
    if |pieces| == 1 then pieces[0] else pieces[0] + [c] + Join(pieces[1..], c)
  }

  /** Splitting loses nothing and leaves no separator behind. */
  lemma {:induction false} JoinOfSplit(s: string, c: char)
    ensures Join(Split(s, c), c) == s
    ensures forall i :: 0 <= i < |Split(s, c)| ==> c !in Split(s, c)[i]
  {
    if s != "" {
      JoinOfSplit(s[1..], c);
      var rest := Split(s[1..], c);
      if s[0] == c {
        assert Split(s, c)[1..] == rest;
      } else {
        assert Split(s, c)[1..] == rest[1..];
      }
    }
  }

  lemma SplitStep(s: string, c: char, begin: nat)
    requires begin < |s|
    ensures var rest := Split(s[begin + 1..], c);
      Split(s[begin..], c) == if s[begin] == c then [""] + rest else [[s[begin]] + rest[0]] + rest[1..]
  {
    assert s[begin..][1..] == s[begin + 1..];
  }

  lemma {:induction false} SplitAtFind(s: string, c: char, begin: nat)
    requires begin <= |s|
    ensures var end := Find(s, c, begin);
      && (end.None? ==> Split(s[begin..], c) == [s[begin..]])
      && (end.Some? ==> begin <= end.value < |s|
                        && Split(s[begin..], c) == [s[begin..end.value]] + Split(s[end.value + 1..], c))
    decreases |s| - begin
  {
    if begin < |s| {
      hide Split;
      SplitStep(s, c, begin);
      if s[begin] == c {
        assert s[begin..begin] == "";
      } else {
        SplitAtFind(s, c, begin + 1);
        var rest, end := Split(s[begin + 1..], c), Find(s, c, begin + 1);
        if end.Some? {
          assert [s[begin]] + s[begin + 1..end.value] == s[begin..end.value];
          assert rest[1..] == Split(s[end.value + 1..], c);
        } else {
          assert [s[begin]] + s[begin + 1..] == s[begin..];
        }
      }
    } else {
      SplitNothing(c);
    }
  }

  lemma SplitNothing(c: char)
    ensures Split("", c) == [""]
  {
  }

  // ----- the search

  const ENOENT := 2
  const EACCES := 13
  const ENOTDIR := 20

  predicate TriesOn(error: int) {
    error == ENOENT || error == ENOTDIR || error == EACCES
  }

  function CandidateIn(directory: string, command: string): string {
    if directory == "" then command else directory + "/" + command
  }

  /** The files to try, one for each element of the search path, in order. */
  function Candidates(path: string, command: string): seq<string> {
    var directories := Split(path, ':');
    seq(|directories|, i requires 0 <= i < |directories| => CandidateIn(directories[i], command))
  }

  /** What posix_spawn returns for the nth file tried. */
  type Spawn = (nat, string) -> int

  /** A search that ends with this result after these attempts: each candidate in order, up to the
      first that starts or fails for a reason other than being missing or denied; when there is
      none, denied if any was. */
  predicate Searched(spawn: Spawn, candidates: seq<string>, tried: seq<string>, error: int) {
    && 0 < |tried| <= |candidates|
    && tried == candidates[..|tried|]
    && (forall i :: 0 <= i < |tried| - 1 ==> TriesOn(spawn(i, tried[i])))
    && var last := spawn(|tried| - 1, tried[|tried| - 1]);
      if TriesOn(last) then
        |tried| == |candidates| && error == if DeniedOnce(spawn, tried) then EACCES else ENOENT
      else error == last
  }

  predicate DeniedOnce(spawn: Spawn, tried: seq<string>) {
    exists i :: 0 <= i < |tried| && spawn(i, tried[i]) == EACCES
  }

  /** There is only one such search. */
  lemma SearchedOnce(spawn: Spawn, candidates: seq<string>, t0: seq<string>, e0: int, t1: seq<string>, e1: int)
    requires Searched(spawn, candidates, t0, e0) && Searched(spawn, candidates, t1, e1)
    ensures t0 == t1 && e0 == e1
  {
    EndsNoEarlier(spawn, candidates, t0, e0, t1, e1);
    EndsNoEarlier(spawn, candidates, t1, e1, t0, e0);
  }

  lemma EndsNoEarlier(spawn: Spawn, candidates: seq<string>, t0: seq<string>, e0: int, t1: seq<string>, e1: int)
    requires Searched(spawn, candidates, t0, e0) && Searched(spawn, candidates, t1, e1)
    ensures |t0| >= |t1|
  {
    var last := |t0| - 1;
    assert last < |t1| ==> t1[last] == t0[last];
  }

  /** The pieces of the search path from begin on are the directories of the candidates left. */
  predicate TriedUpTo(path: string, command: string, begin: nat, tried: seq<string>) {
    var directories := Split(path, ':');
    && begin <= |path| && |tried| < |directories|
    && directories[|tried|..] == Split(path[begin..], ':')
    && tried == Candidates(path, command)[..|tried|]
  }

  lemma NoneTried(path: string, command: string)
    ensures TriedUpTo(path, command, 0, [])
  {
    assert path[0..] == path;
  }

  lemma OneTried(path: string, command: string, begin: nat, tried: seq<string>)
    requires TriedUpTo(path, command, begin, tried)
    ensures var end := Find(path, ':', begin);
      var directory := if end.None? then path[begin..] else path[begin..end.value];
      var tried' := tried + [CandidateIn(directory, command)];
      && |tried'| <= |Candidates(path, command)| && tried' == Candidates(path, command)[..|tried'|]
      && (end.Some? ==> TriedUpTo(path, command, end.value + 1, tried'))
      && (end.None? ==> |tried'| == |Candidates(path, command)|)
  {
    hide Split;
    SplitAtFind(path, ':', begin);
    var directories := Split(path, ':');
    var n := |tried|;
    assert directories[n] == directories[n..][0];
    assert directories[n + 1..] == directories[n..][1..];
  }

  /** The loop along the search path. */
  method SearchPath(spawn: Spawn, path: string, command: string) returns (spawnError: int, tried: seq<string>)
    ensures Searched(spawn, Candidates(path, command), tried, spawnError)
  {
    hide Split, DeniedOnce, Candidates, TriedUpTo;
    NoneDenied(spawn);
    NoneTried(path, command);
    spawnError, tried := ENOENT, [];
    var denied := false;
    var begin := 0;
    while true
      invariant 0 <= begin <= |path| && TriedUpTo(path, command, begin, tried)
      invariant forall i :: 0 <= i < |tried| ==> TriesOn(spawn(i, tried[i]))
      invariant denied == DeniedOnce(spawn, tried)
      decreases |path| - begin
    {
      OneTried(path, command, begin, tried);
      var end := Find(path, ':', begin);
      var directory := if end.None? then path[begin..] else path[begin..end.value];
      var executable := if directory == "" then command else directory + "/" + command;
      spawnError := spawn(|tried|, executable);
      DeniedMore(spawn, tried, executable);
      tried := tried + [executable];
      if spawnError == 0 {
        return;
      }
      denied := denied || spawnError == EACCES;
      if spawnError != ENOENT && spawnError != ENOTDIR && spawnError != EACCES {
        return;
      }
      if end.None? {
        spawnError := if denied then EACCES else ENOENT;
        return;
      }
      begin := end.value + 1;
    }
  }

  lemma NoneDenied(spawn: Spawn)
    ensures !DeniedOnce(spawn, [])
  {
  }

  lemma DeniedMore(spawn: Spawn, tried: seq<string>, executable: string)
    ensures DeniedOnce(spawn, tried + [executable]) <==>
            DeniedOnce(spawn, tried) || spawn(|tried|, executable) == EACCES
  {
    var all := tried + [executable];
    if i :| 0 <= i < |tried| && spawn(i, tried[i]) == EACCES {
      assert all[i] == tried[i];
    }
    if spawn(|tried|, executable) == EACCES {
      assert all[|tried|] == executable;
    }
  }

  // ----- the whole launch

  const DEFAULT_PATH: string := "/bin:/usr/bin"

  /** The search path: the last PATH entry wins. */
  function PathOf(entries: seq<string>): string {
    if entries == [] then DEFAULT_PATH
    else
      var last := entries[|entries| - 1];
      if Sets(last, "PATH") then last[5..] else PathOf(entries[..|entries| - 1])
  }

  method FindPath(entries: seq<string>) returns (path: string)
    ensures path == PathOf(entries)
  {
    path := DEFAULT_PATH;
    for i := 0 to |entries|
      invariant path == PathOf(entries[..i])
    {
      assert entries[..i + 1][..i] == entries[..i];
      if "PATH=" <= entries[i] {
        path := entries[i][5..];
      }
    }
    assert entries[..|entries|] == entries;
  }

  lemma {:induction false} PathConcat(s: seq<string>, t: seq<string>)
    requires exists i :: 0 <= i < |t| && Sets(t[i], "PATH")
    ensures PathOf(s + t) == PathOf(t)
  {
    var front := t[..|t| - 1];
    assert (s + t)[..|s + t| - 1] == s + front;
    if !Sets(t[|t| - 1], "PATH") {
      var i :| 0 <= i < |t| && Sets(t[i], "PATH");
      assert Sets(front[i], "PATH");
      PathConcat(s, front);
    }
  }

  predicate LastPathAt(t: seq<string>, i: int, entry: string) {
    0 <= i < |t| && t[i] == entry && forall j :: i < j < |t| ==> !Sets(t[j], "PATH")
  }

  /** The last override of PATH is the one that the search follows. */
  lemma {:induction false} PathFollowsOverride(entries: seq<string>, os: seq<Override>, k: nat)
    requires k < |os| && os[k].name == "PATH" && AllValid(os)
    requires forall j :: k < j < |os| ==> os[j].name != "PATH"
    ensures PathOf(Overridden(entries, os)) == os[k].value
  {
    var i := LastSettingOfPath(os, k);
    var t := LastSettings(os);
    assert Sets(t[i], "PATH");
    PathConcat(Inherited(entries, os), t);
    PathAt(t, i);
  }

  lemma {:induction false} PathAt(t: seq<string>, i: nat)
    requires i < |t| && Sets(t[i], "PATH")
    requires forall j :: i < j < |t| ==> !Sets(t[j], "PATH")
    ensures PathOf(t) == t[i][5..]
  {
    if i < |t| - 1 {
      PathAt(t[..|t| - 1], i);
    }
  }

  lemma {:induction false} LastSettingOfPath(os: seq<Override>, k: nat) returns (i: nat)
    requires k < |os| && os[k].name == "PATH" && AllValid(os)
    requires forall j :: k < j < |os| ==> os[j].name != "PATH"
    ensures LastPathAt(LastSettings(os), i, EntryOf(os[k]))
  {
    var rest, t := LastSettings(os[1..]), LastSettings(os);
    if k == 0 {
      NoPathSettings(os[1..]);
      assert !Overrides(os[1..], Some(os[0].name));
      assert t == [EntryOf(os[0])] + rest;
      i := 0;
    } else {
      var j := LastSettingOfPath(os[1..], k - 1);
      i := j + (|t| - |rest|);
      assert t[i] == rest[j];
      assert forall h :: i < h < |t| ==> t[h] == rest[h - (|t| - |rest|)];
    }
  }

  lemma {:induction false} NoPathSettings(os: seq<Override>)
    requires AllValid(os) && forall j :: 0 <= j < |os| ==> os[j].name != "PATH"
    ensures forall j :: 0 <= j < |LastSettings(os)| ==> !Sets(LastSettings(os)[j], "PATH")
  {
    if os != [] {
      NoPathSettings(os[1..]);
      SetsIsNamed(EntryOf(os[0]), "PATH");
      EntryIsNamed(os[0]);
    }
  }

  datatype LaunchError = BadEnvironment(error: EnvironmentError) | SpawnError(errno: int)

  const METRICS_VARIABLE: string := "PERFLENS_METRICS_FILE"

  /** The overrides, with the metrics file last. */
  function AllOverrides(environment: seq<Override>, metricsPath: string): seq<Override> {
    if metricsPath == "" then environment else environment + [Override(METRICS_VARIABLE, metricsPath)]
  }

  // ----- the search, spelled out

  /** The value of the last entry that sets PATH, or the default if none does. */
  ghost predicate PathIs(entries: seq<string>, path: string) {
    || (path == "/bin:/usr/bin" && forall j :: 0 <= j < |entries| ==> !("PATH=" <= entries[j]))
    || exists i :: LastPathIs(entries, path, i)
  }

  predicate LastPathIs(entries: seq<string>, path: string, i: int) {
    0 <= i < |entries| && entries[i] == "PATH=" + path && forall j :: i < j < |entries| ==> !("PATH=" <= entries[j])
  }

  /** The elements of the path are tried from the first on, an empty one standing for the current directory.
      What is missing (2), not under a directory (20) or denied (13) is passed over; when the
      path is used up the command was denied if one attempt was, and else is missing. */
  predicate TriedAlong(spawn: Spawn, elements: seq<string>, command: string, tried: seq<string>, error: int) {
    && 0 < |tried| <= |elements|
    && (forall i :: 0 <= i < |tried| ==>
          tried[i] == if elements[i] == "" then command else elements[i] + "/" + command)
    && (forall i :: 0 <= i < |tried| - 1 ==> spawn(i, tried[i]) in {2, 13, 20})
    && var last := spawn(|tried| - 1, tried[|tried| - 1]);
      if last !in {2, 13, 20} then error == last
      else
        && |tried| == |elements|
        && error == if exists i :: 0 <= i < |tried| && spawn(i, tried[i]) == 13 then 13 else 2
  }

  lemma PathStays(front: seq<string>, last: string, path: string)
    requires PathIs(front, path) && !("PATH=" <= last)
    ensures PathIs(front + [last], path)
  {
    var all := front + [last];
    if i :| LastPathIs(front, path, i) {
      assert LastPathIs(all, path, i);
    }
  }

  lemma PathSet(front: seq<string>, last: string)
    requires "PATH=" <= last
    ensures PathIs(front + [last], last[5..])
  {
    assert last == "PATH=" + last[5..];
    assert LastPathIs(front + [last], last[5..], |front|);
  }

  lemma {:induction false} PathOfIs(entries: seq<string>)
    ensures PathIs(entries, PathOf(entries))
  {
    if entries != [] {
      hide PathIs;
      var front, last := entries[..|entries| - 1], entries[|entries| - 1];
      assert entries == front + [last];
      PathOfIs(front);
      if "PATH=" <= last {
        PathSet(front, last);
      } else {
        PathStays(front, last, PathOf(front));
      }
    } else {
      DefaultPath();
    }
  }

  lemma DefaultPath()
    ensures PathIs([], "/bin:/usr/bin")
  {
  }

  lemma SearchedAlong(spawn: Spawn, path: string, command: string, tried: seq<string>, error: int)
    requires Searched(spawn, Candidates(path, command), tried, error)
    ensures TriedAlong(spawn, Split(path, ':'), command, tried, error)
  {
    hide Split;
    var candidates := Candidates(path, command);
    forall i | 0 <= i < |tried|
      ensures tried[i] == candidates[i]
    {
    }
  }

  /** A command with a slash is started as it is; any other is searched for along the PATH of the
      environment that the workload itself gets. */
  method StartWorkload(environ: seq<string>, environment: seq<Override>, metricsPath: string, command: string,
                       spawn: Spawn) returns (r: Result<seq<string>, LaunchError>, tried: seq<string>)
    ensures !AllValid(environment) ==> r.Err? && r.error.BadEnvironment? && tried == []
    ensures r.Err? && r.error.BadEnvironment? <==>
      exists i :: 0 <= i < |environment| && (environment[i].name == "" || '=' in environment[i].name)
    ensures AllValid(environment) ==>
      var entries := Overridden(environ, AllOverrides(environment, metricsPath));
      var candidates := if '/' in command then [command] else Candidates(PathOf(entries), command);
      && (r.Ok? ==> r.value == entries && tried != [] && spawn(|tried| - 1, tried[|tried| - 1]) == 0)
      && (r.Err? ==> r.error.SpawnError? && r.error.errno != 0)
      && if '/' in command then tried == [command] && (r.Err? ==> r.error.errno == spawn(0, command))
         else Searched(spawn, candidates, tried, if r.Ok? then 0 else r.error.errno)
    ensures AllValid(environment) && '/' !in command ==>
      var entries := Overridden(environ, AllOverrides(environment, metricsPath));
      && PathIs(entries, PathOf(entries))
      && TriedAlong(spawn, Split(PathOf(entries), ':'), command, tried, if r.Ok? then 0 else r.error.errno)
    ensures r.Ok? ==>
      Environs(r.value, environ, if metricsPath == "" then environment
                                 else environment + [Override("PERFLENS_METRICS_FILE", metricsPath)])
  {
    hide Overridden, Candidates, PathOf, ValidName, TriedAlong, Searched, Split, PathIs, Environs;
    tried := [];
    MetricsVariableValid(environment, metricsPath);
    ValidNames(environment);
    var values := ApplyOverrides(environ, AllOverrides(environment, metricsPath));
    if values.Err? {
      return Err(BadEnvironment(values.error)), [];
    }
    var spawnError;
    if '/' in command {
      tried := [command];
      spawnError := spawn(0, command);
    } else {
      var path := FindPath(values.value);
      PathOfIs(values.value);
      spawnError, tried := SearchPath(spawn, path, command);
      SearchedAlong(spawn, path, command, tried, spawnError);
      SearchTried(spawn, Candidates(path, command), tried, spawnError);
    }
    r := if spawnError != 0 then Err(SpawnError(spawnError)) else Ok(values.value);
  }

  lemma ValidNames(os: seq<Override>)
    ensures AllValid(os) <==> forall i :: 0 <= i < |os| ==> os[i].name != "" && '=' !in os[i].name
  {
  }

  lemma SearchTried(spawn: Spawn, candidates: seq<string>, tried: seq<string>, error: int)
    requires Searched(spawn, candidates, tried, error)
    ensures tried != [] && (error == 0 ==> spawn(|tried| - 1, tried[|tried| - 1]) == 0)
  {
  }

  lemma MetricsVariableValid(environment: seq<Override>, metricsPath: string)
    ensures AllValid(AllOverrides(environment, metricsPath)) <==> AllValid(environment)
  {
    if metricsPath != "" {
      var last := Override(METRICS_VARIABLE, metricsPath);
      assert ValidName(METRICS_VARIABLE);
      assert (environment + [last])[|environment|] == last;
      if AllValid(environment + [last]) {
        assert forall i :: 0 <= i < |environment| ==> (environment + [last])[i] == environment[i];
      }
    }
  }
}
