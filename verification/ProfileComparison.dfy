/** Comparing two profiles by their functions' shares of all samples
    (src/analysis/comparison.cpp:52-65, 165-200), over exact reals. */
module ProfileComparison {
  import opened Sorting
  import opened Profiles
  import opened Statistics
  import opened Comparison

  /** The function samples of all runs, in order. */
  function AllFunctions(runs: seq<RunResult>): seq<FunctionSample> {
    if runs == [] then [] else AllFunctions(runs[..|runs| - 1]) + runs[|runs| - 1].functions
  }

  function Total(fs: seq<FunctionSample>): nat {
    if fs == [] then 0 else Total(fs[..|fs| - 1]) + fs[|fs| - 1].samples
  }

  /** The samples of one key. */
  function Tally(fs: seq<FunctionSample>, key: Key): nat {
    if fs == [] then 0
    else Tally(fs[..|fs| - 1], key) + (if KeyOf(fs[|fs| - 1]) == key then fs[|fs| - 1].samples else 0)
  }

  function Keys(fs: seq<FunctionSample>): set<Key> {
    set f <- fs :: KeyOf(f)
  }

  type Aggregate = map<Key, nat>

  predicate Aggregates(a: Aggregate, fs: seq<FunctionSample>) {
    a.Keys == Keys(fs) && forall key :: key in a ==> a[key] == Tally(fs, key)
  }

  function CountOf(a: Aggregate, key: Key): nat {
    if key in a then a[key] else 0
  }

  lemma {:induction false} TallyAbsent(fs: seq<FunctionSample>, key: Key)
    requires key !in Keys(fs)
    ensures Tally(fs, key) == 0
  {
    if fs != [] {
      assert KeyOf(fs[|fs| - 1]) in Keys(fs);
      TallyAbsent(fs[..|fs| - 1], key);
    }
  }

  lemma AggregatesMore(a: Aggregate, fs: seq<FunctionSample>, f: FunctionSample)
    requires Aggregates(a, fs)
    ensures Aggregates(a[KeyOf(f) := CountOf(a, KeyOf(f)) + f.samples], fs + [f])
    ensures Total(fs + [f]) == Total(fs) + f.samples
  {
    assert (fs + [f])[..|fs|] == fs;
    assert Keys(fs + [f]) == Keys(fs) + {KeyOf(f)};
    if KeyOf(f) !in a {
      TallyAbsent(fs, KeyOf(f));
    }
  }

  lemma NothingAggregated()
    ensures Aggregates(map[], []) && Total([]) == 0
  {
  }

  lemma FunctionsMore(runs: seq<RunResult>, i: nat)
    requires i < |runs|
    ensures AllFunctions(runs[..i + 1]) == AllFunctions(runs[..i]) + runs[i].functions
  {
    assert runs[..i + 1][..i] == runs[..i];
  }

  method AggregateProfile(runs: seq<RunResult>) returns (aggregate: Aggregate, total: nat)
    ensures Aggregates(aggregate, AllFunctions(runs)) && total == Total(AllFunctions(runs))
  {
    hide Aggregates, Total, KeyOf, CountOf;
    NothingAggregated();
    aggregate, total := map[], 0;
    for i := 0 to |runs|
      invariant Aggregates(aggregate, AllFunctions(runs[..i])) && total == Total(AllFunctions(runs[..i]))
    {
      var functions := runs[i].functions;
      ghost var before := AllFunctions(runs[..i]);
      assert before + functions[..0] == before;
      for j := 0 to |functions|
        invariant Aggregates(aggregate, before + functions[..j]) && total == Total(before + functions[..j])
      {
        var f := functions[j];
        AggregatesMore(aggregate, before + functions[..j], f);
        assert before + functions[..j + 1] == before + functions[..j] + [f];
        aggregate := aggregate[KeyOf(f) := CountOf(aggregate, KeyOf(f)) + f.samples];
        total := total + f.samples;
      }
      assert functions[..|functions|] == functions;
      FunctionsMore(runs, i);
    }
    assert runs[..|runs|] == runs;
  }

  // ----- changes

  datatype ProfileChange = ProfileChange(key: Key, baselinePercent: real, candidatePercent: real, change: real)

  function Share(count: nat, total: nat): real {
    if total == 0 then 0.0 else count as real / total as real * 100.0
  }

  function ChangeOf(b: seq<FunctionSample>, c: seq<FunctionSample>, key: Key): ProfileChange {
    var bp, cp := Share(Tally(b, key), Total(b)), Share(Tally(c, key), Total(c));
    ProfileChange(key, bp, cp, cp - bp)
  }

  predicate DistinctKeys(changes: seq<ProfileChange>) {
    forall i, j :: 0 <= i < j < |changes| ==> changes[i].key != changes[j].key
  }

  /** One change per key of either side, whatever the order. */
  ghost predicate Lists(changes: seq<ProfileChange>, keys: set<Key>, b: seq<FunctionSample>, c: seq<FunctionSample>) {
    && DistinctKeys(changes)
    && (forall i :: 0 <= i < |changes| ==> changes[i].key in keys && changes[i] == ChangeOf(b, c, changes[i].key))
    && (forall key :: key in keys ==> ChangeOf(b, c, key) in changes)
  }

  /** What compareProfiles promises: every key of either side once, largest change first. */
  ghost predicate Compares(changes: seq<ProfileChange>, b: seq<FunctionSample>, c: seq<FunctionSample>) {
    && Lists(changes, Keys(b) + Keys(c), b, c)
    && forall i, j :: 0 <= i < j < |changes| ==> Abs(changes[i].change) >= Abs(changes[j].change)
  }

  lemma ListsPermuted(s: seq<ProfileChange>, t: seq<ProfileChange>, keys: set<Key>, b: seq<FunctionSample>,
                      c: seq<FunctionSample>)
    requires Lists(s, keys, b, c) && multiset(s) == multiset(t)
    ensures Lists(t, keys, b, c)
  {
    assert forall x :: x in multiset(t) <==> x in multiset(s);
    forall i | 0 <= i < |t|
      ensures t[i].key in keys && t[i] == ChangeOf(b, c, t[i].key)
    {
      assert t[i] in multiset(s);
    }
    forall key | key in keys
      ensures ChangeOf(b, c, key) in t
    {
      assert ChangeOf(b, c, key) in multiset(t);
    }
    var keyOf := (change: ProfileChange) => change.key;
    assert DistinctBy(s, keyOf);
    PermutedDistinct(s, t, keyOf);
    assert forall i, j :: 0 <= i < j < |t| ==> keyOf(t[i]) != keyOf(t[j]);
  }

  method ChangeFrom(b: Aggregate, bTotal: nat, c: Aggregate, cTotal: nat, key: Key,
                    ghost bs: seq<FunctionSample>, ghost cs: seq<FunctionSample>) returns (change: ProfileChange)
    requires Aggregates(b, bs) && bTotal == Total(bs) && Aggregates(c, cs) && cTotal == Total(cs)
    ensures change == ChangeOf(bs, cs, key)
  {
    hide Total, Tally, Share;
    CountsAreTallies(b, bs, key);
    CountsAreTallies(c, cs, key);
    var baselinePercent := Share(CountOf(b, key), bTotal);
    var candidatePercent := Share(CountOf(c, key), cTotal);
    change := ProfileChange(key, baselinePercent, candidatePercent, candidatePercent - baselinePercent);
  }

  method ListChanges(b: Aggregate, bTotal: nat, c: Aggregate, cTotal: nat,
                     ghost bs: seq<FunctionSample>, ghost cs: seq<FunctionSample>) returns (changes: seq<ProfileChange>)
    requires Aggregates(b, bs) && bTotal == Total(bs) && Aggregates(c, cs) && cTotal == Total(cs)
    ensures Lists(changes, Keys(bs) + Keys(cs), bs, cs)
  {
    assert b.Keys == Keys(bs) && c.Keys == Keys(cs);
    assert Lists([], {}, bs, cs);
    hide Total, Lists, ChangeOf, Keys, Aggregates;
    var keys := b.Keys + c.Keys;
    var left := keys;
    ghost var done: set<Key> := {};
    changes := [];
    while left != {}
      invariant done !! left && done + left == keys
      invariant Lists(changes, done, bs, cs)
      decreases left
    {
      var key :| key in left;
      var change := ChangeFrom(b, bTotal, c, cTotal, key, bs, cs);
      ListsMore(changes, done, bs, cs, change, key);
      changes := changes + [change];
      left, done := left - {key}, done + {key};
    }
    assert done == Keys(bs) + Keys(cs);
  }

  method CompareProfiles(baseline: seq<RunResult>, candidate: seq<RunResult>) returns (changes: seq<ProfileChange>)
    ensures Compares(changes, AllFunctions(baseline), AllFunctions(candidate))
    ensures ReportsAll(changes, baseline, candidate)
  {
    hide Lists, Aggregates, AllFunctions, ReportsAll;
    var b, bTotal := AggregateProfile(baseline);
    var c, cTotal := AggregateProfile(candidate);
    ghost var bs, cs := AllFunctions(baseline), AllFunctions(candidate);
    var listed := ListChanges(b, bTotal, c, cTotal, bs, cs);
    var bySize := (change: ProfileChange) => -Abs(change.change);
    changes := SortBy(listed, bySize);
    ListsPermuted(listed, changes, Keys(bs) + Keys(cs), bs, cs);
    forall i, j | 0 <= i < j < |changes|
      ensures Abs(changes[i].change) >= Abs(changes[j].change)
    {
      assert bySize(changes[i]) <= bySize(changes[j]);
    }
    ComparesReports(changes, baseline, candidate);
  }

  lemma CountsAreTallies(a: Aggregate, fs: seq<FunctionSample>, key: Key)
    requires Aggregates(a, fs)
    ensures CountOf(a, key) == Tally(fs, key)
  {
    if key !in a {
      TallyAbsent(fs, key);
    }
  }

  lemma ListsMore(listed: seq<ProfileChange>, keys: set<Key>, b: seq<FunctionSample>, c: seq<FunctionSample>,
                  change: ProfileChange, key: Key)
    requires Lists(listed, keys, b, c) && key !in keys && change == ChangeOf(b, c, key)
    ensures Lists(listed + [change], keys + {key}, b, c)
  {
    hide Share, Tally, Total;
  }

  // ----- conservation

  function SumBaseline(changes: seq<ProfileChange>): real {
    if changes == [] then 0.0 else SumBaseline(changes[1..]) + changes[0].baselinePercent
  }

  function SumCandidate(changes: seq<ProfileChange>): real {
    if changes == [] then 0.0 else SumCandidate(changes[1..]) + changes[0].candidatePercent
  }

  function SumChanges(changes: seq<ProfileChange>): real {
    if changes == [] then 0.0 else SumChanges(changes[1..]) + changes[0].change
  }

  /** The samples of the listed keys together. */
  function TallyAll(fs: seq<FunctionSample>, changes: seq<ProfileChange>): nat {
    if changes == [] then 0 else TallyAll(fs, changes[1..]) + Tally(fs, changes[0].key)
  }

  lemma {:induction false} TallyAllMore(fs: seq<FunctionSample>, f: FunctionSample, changes: seq<ProfileChange>)
    requires DistinctKeys(changes)
    ensures TallyAll(fs + [f], changes)
         == TallyAll(fs, changes) + (if exists i :: 0 <= i < |changes| && changes[i].key == KeyOf(f) then f.samples else 0)
  {
    if changes != [] {
      TallyAllMore(fs, f, changes[1..]);
      assert (fs + [f])[..|fs|] == fs;
      if changes[0].key == KeyOf(f) {
        assert forall i :: 0 <= i < |changes[1..]| ==> changes[1..][i].key != KeyOf(f);
      } else if i :| 0 <= i < |changes| && changes[i].key == KeyOf(f) {
        assert changes[1..][i - 1].key == KeyOf(f);
      }
    }
  }

  /** Counting key by key is counting all: no sample is dropped or counted twice. */
  lemma {:induction false} TallyAllIsTotal(fs: seq<FunctionSample>, changes: seq<ProfileChange>)
    requires DistinctKeys(changes)
    requires forall key :: key in Keys(fs) ==> exists i :: 0 <= i < |changes| && changes[i].key == key
    ensures TallyAll(fs, changes) == Total(fs)
  {
    if fs == [] {
      NothingToTally(changes);
    } else {
      var front, f := fs[..|fs| - 1], fs[|fs| - 1];
      assert fs == front + [f];
      assert Keys(front) <= Keys(fs);
      TallyAllIsTotal(front, changes);
      TallyAllMore(front, f, changes);
      assert KeyOf(f) in Keys(fs);
    }
  }

  lemma {:induction false} NothingToTally(changes: seq<ProfileChange>)
    ensures TallyAll([], changes) == 0
  {
    if changes != [] {
      NothingToTally(changes[1..]);
    }
  }

  lemma ShareAdds(m: nat, n: nat, total: nat)
    ensures Share(m + n, total) == Share(m, total) + Share(n, total)
  {
  }

  lemma {:induction false} SharesSum(changes: seq<ProfileChange>, b: seq<FunctionSample>, c: seq<FunctionSample>)
    requires forall i :: 0 <= i < |changes| ==> changes[i] == ChangeOf(b, c, changes[i].key)
    ensures SumBaseline(changes) == Share(TallyAll(b, changes), Total(b))
    ensures SumCandidate(changes) == Share(TallyAll(c, changes), Total(c))
    ensures SumChanges(changes) == SumCandidate(changes) - SumBaseline(changes)
  {
    if changes != [] {
      hide Share;
      SharesSum(changes[1..], b, c);
      ShareAdds(TallyAll(b, changes[1..]), Tally(b, changes[0].key), Total(b));
      ShareAdds(TallyAll(c, changes[1..]), Tally(c, changes[0].key), Total(c));
    }
  }

  /** Shares are conserved: each side's percentages add up to 100, or to 0 when it has no samples,
      and the changes add up to 0 when both sides have some. */
  lemma SharesConserved(changes: seq<ProfileChange>, b: seq<FunctionSample>, c: seq<FunctionSample>)
    requires Compares(changes, b, c)
    ensures SumBaseline(changes) == if Total(b) == 0 then 0.0 else 100.0
    ensures SumCandidate(changes) == if Total(c) == 0 then 0.0 else 100.0
    ensures Total(b) != 0 && Total(c) != 0 ==> SumChanges(changes) == 0.0
  {
    hide Share, Total, Tally, TallyAll, SumBaseline, SumCandidate, SumChanges, Keys;
    forall key | key in Keys(b) + Keys(c)
      ensures exists i :: 0 <= i < |changes| && changes[i].key == key
    {
      assert ChangeOf(b, c, key) in changes;
      var i :| 0 <= i < |changes| && changes[i] == ChangeOf(b, c, key);
      assert changes[i].key == key;
    }
    SharesSum(changes, b, c);
    TallyAllIsTotal(b, changes);
    TallyAllIsTotal(c, changes);
    WholeShare(Total(b));
    WholeShare(Total(c));
  }

  lemma WholeShare(total: nat)
    ensures Share(total, total) == if total == 0 then 0.0 else 100.0
  {
  }

  /** Swapping the sides lists the same keys, with the percentages swapped and every change negated. */
  lemma SwapNegates(changes: seq<ProfileChange>, swapped: seq<ProfileChange>, b: seq<FunctionSample>,
                    c: seq<FunctionSample>, i: nat)
    requires Compares(changes, b, c) && Compares(swapped, c, b) && i < |changes|
    ensures |swapped| == |changes|
    ensures exists j :: 0 <= j < |swapped| && swapped[j] ==
              ProfileChange(changes[i].key, changes[i].candidatePercent, changes[i].baselinePercent, -changes[i].change)
  {
    var key := changes[i].key;
    assert key in Keys(c) + Keys(b);
    assert ChangeOf(c, b, key) in swapped;
    ListLength(changes, Keys(b) + Keys(c), b, c);
    ListLength(swapped, Keys(c) + Keys(b), c, b);
    assert Keys(b) + Keys(c) == Keys(c) + Keys(b);
  }

  /** There are as many changes as keys. */
  lemma {:induction false} ListLength(changes: seq<ProfileChange>, keys: set<Key>, b: seq<FunctionSample>,
                                      c: seq<FunctionSample>)
    requires Lists(changes, keys, b, c)
    ensures |changes| == |keys|
  {
    if changes == [] {
      assert keys == {} by {
        if key :| key in keys {
          assert false;
        }
      }
    } else {
      var front, last := changes[..|changes| - 1], changes[|changes| - 1];
      assert Lists(front, keys - {last.key}, b, c) by {
        forall key | key in keys - {last.key}
          ensures ChangeOf(b, c, key) in front
        {
          var k :| 0 <= k < |changes| && changes[k] == ChangeOf(b, c, key);
          assert front[k] == changes[k];
        }
      }
      ListLength(front, keys - {last.key}, b, c);
    }
  }

  // ----- the changes, in terms of the runs

  function SamplesOf(fs: seq<FunctionSample>, location: string, name: string): nat {
    if fs == [] then 0
    else (if fs[0].location == location && fs[0].name == name then fs[0].samples else 0)
         + SamplesOf(fs[1..], location, name)
  }

  function SamplesIn(fs: seq<FunctionSample>): nat {
    if fs == [] then 0 else fs[0].samples + SamplesIn(fs[1..])
  }

  /** The samples of one function in all runs. */
  function RunSamples(runs: seq<RunResult>, location: string, name: string): nat {
    if runs == [] then 0 else SamplesOf(runs[0].functions, location, name) + RunSamples(runs[1..], location, name)
  }

  function RunTotal(runs: seq<RunResult>): nat {
    if runs == [] then 0 else SamplesIn(runs[0].functions) + RunTotal(runs[1..])
  }

  predicate Names(fs: seq<FunctionSample>, location: string, name: string) {
    exists j :: 0 <= j < |fs| && fs[j].location == location && fs[j].name == name
  }

  predicate Listed(runs: seq<RunResult>, location: string, name: string) {
    exists i :: 0 <= i < |runs| && Names(runs[i].functions, location, name)
  }

  /** So many percent of the total; nothing of nothing. */
  predicate IsShare(percent: real, count: nat, total: nat) {
    if total == 0 then percent == 0.0 else percent * total as real == 100.0 * count as real
  }

  ghost predicate Reports(change: ProfileChange, b: seq<RunResult>, c: seq<RunResult>) {
    var location, name := change.key.location, change.key.name;
    && (Listed(b, location, name) || Listed(c, location, name))
    && IsShare(change.baselinePercent, RunSamples(b, location, name), RunTotal(b))
    && IsShare(change.candidatePercent, RunSamples(c, location, name), RunTotal(c))
    && change.change == change.candidatePercent - change.baselinePercent
  }

  /** One change for every function that a run of either side lists. */
  ghost predicate ReportsAll(changes: seq<ProfileChange>, b: seq<RunResult>, c: seq<RunResult>) {
    && (forall i :: 0 <= i < |changes| ==> Reports(changes[i], b, c))
    && (forall location, name :: Listed(b, location, name) || Listed(c, location, name) ==>
          exists i :: 0 <= i < |changes| && changes[i].key.location == location && changes[i].key.name == name)
    && (forall i, j :: 0 <= i < j < |changes| ==>
          changes[i].key.location != changes[j].key.location || changes[i].key.name != changes[j].key.name)
  }

  lemma {:induction false} TallyIs(fs: seq<FunctionSample>, f: FunctionSample, key: Key)
    ensures Tally(fs + [f], key) == Tally(fs, key) + (if f.location == key.location && f.name == key.name then f.samples else 0)
    ensures Total(fs + [f]) == Total(fs) + f.samples
  {
    assert (fs + [f])[..|fs|] == fs;
  }

  lemma {:induction false} TallyConcat(x: seq<FunctionSample>, y: seq<FunctionSample>, key: Key)
    ensures Tally(x + y, key) == Tally(x, key) + SamplesOf(y, key.location, key.name)
    ensures Total(x + y) == Total(x) + SamplesIn(y)
    decreases |y|
  {
    if y == [] {
      assert x + y == x;
    } else {
      assert x + y == (x + [y[0]]) + y[1..];
      TallyConcat(x + [y[0]], y[1..], key);
      TallyIs(x, y[0], key);
    }
  }

  lemma {:induction false} RunSamplesMore(runs: seq<RunResult>, run: RunResult, location: string, name: string)
    ensures RunSamples(runs + [run], location, name) == RunSamples(runs, location, name) + SamplesOf(run.functions, location, name)
    ensures RunTotal(runs + [run]) == RunTotal(runs) + SamplesIn(run.functions)
  {
    if runs == [] {
      assert (runs + [run])[1..] == [];
    } else {
      assert (runs + [run])[1..] == runs[1..] + [run];
      RunSamplesMore(runs[1..], run, location, name);
    }
  }

  lemma {:induction false} RunsTallied(runs: seq<RunResult>, key: Key)
    ensures Tally(AllFunctions(runs), key) == RunSamples(runs, key.location, key.name)
    ensures Total(AllFunctions(runs)) == RunTotal(runs)
  {
    if runs != [] {
      hide Tally, Total, SamplesOf, SamplesIn;
      var front, last := runs[..|runs| - 1], runs[|runs| - 1];
      assert runs == front + [last];
      RunsTallied(front, key);
      TallyConcat(AllFunctions(front), last.functions, key);
      RunSamplesMore(front, last, key.location, key.name);
    }
  }

  lemma {:induction false} KeysListed(runs: seq<RunResult>, key: Key)
    ensures key in Keys(AllFunctions(runs)) <==> Listed(runs, key.location, key.name)
  {
    if runs != [] {
      var front, last := runs[..|runs| - 1], runs[|runs| - 1];
      assert runs == front + [last];
      KeysListed(front, key);
      KeysConcat(AllFunctions(front), last.functions, key);
      ListedMore(front, last, key.location, key.name);
    }
  }

  lemma KeysConcat(x: seq<FunctionSample>, y: seq<FunctionSample>, key: Key)
    ensures key in Keys(x + y) <==> key in Keys(x) || Names(y, key.location, key.name)
  {
    if j :| 0 <= j < |y| && y[j].location == key.location && y[j].name == key.name {
      assert KeyOf(y[j]) == key && y[j] in x + y;
    }
  }

  lemma ListedMore(runs: seq<RunResult>, run: RunResult, location: string, name: string)
    ensures Listed(runs + [run], location, name) <==> Listed(runs, location, name) || Names(run.functions, location, name)
  {
    hide Names;
    var more := runs + [run];
    if i :| 0 <= i < |runs| && Names(runs[i].functions, location, name) {
      assert more[i] == runs[i];
    }
    assert more[|runs|] == run;
  }

  lemma ShareIs(count: nat, total: nat)
    ensures IsShare(Share(count, total), count, total)
  {
    if total > 0 {
      var n, t := count as real, total as real;
      assert n / t * 100.0 * t == 100.0 * (n / t * t);
    }
  }

  lemma ChangeReports(key: Key, b: seq<RunResult>, c: seq<RunResult>)
    requires key in Keys(AllFunctions(b)) + Keys(AllFunctions(c))
    ensures Reports(ChangeOf(AllFunctions(b), AllFunctions(c), key), b, c)
  {
    hide Share, IsShare, Listed, Keys, Tally, Total, AllFunctions;
    KeysListed(b, key);
    KeysListed(c, key);
    RunsTallied(b, key);
    RunsTallied(c, key);
    ShareIs(RunSamples(b, key.location, key.name), RunTotal(b));
    ShareIs(RunSamples(c, key.location, key.name), RunTotal(c));
  }

  /** What compares two profiles reports on every function of the runs. */
  lemma ComparesReports(changes: seq<ProfileChange>, b: seq<RunResult>, c: seq<RunResult>)
    requires Compares(changes, AllFunctions(b), AllFunctions(c))
    ensures ReportsAll(changes, b, c)
  {
    hide Reports, ChangeOf, Listed, Keys, AllFunctions, Abs;
    forall i | 0 <= i < |changes|
      ensures Reports(changes[i], b, c)
    {
      ChangeReports(changes[i].key, b, c);
    }
    forall location, name | Listed(b, location, name) || Listed(c, location, name)
      ensures exists i :: 0 <= i < |changes| && changes[i].key.location == location && changes[i].key.name == name
    {
      var key := Key(location, name);
      KeysListed(b, key);
      KeysListed(c, key);
      var i :| 0 <= i < |changes| && changes[i] == ChangeOf(AllFunctions(b), AllFunctions(c), key);
      ChangeKey(AllFunctions(b), AllFunctions(c), key);
    }
  }

  lemma ChangeKey(b: seq<FunctionSample>, c: seq<FunctionSample>, key: Key)
    ensures ChangeOf(b, c, key).key == key
  {
  }
}
