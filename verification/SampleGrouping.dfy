/** Grouping samples into functions in two stages: by module and address, then by the names that
    addr2line gives each module's addresses (src/symbols/symbolizer.cpp:146-161, 209-251). */
module SampleGrouping {
  import opened Results
  import opened Words
  import opened Sorting
  import opened Profiles
  import opened AddressResolution

  // ----- one module's names

  const UNNAMED: string := "??"

  /** The name on the first line of each pair; a pair that is cut short names nothing. */
  function PairedNames(lines: seq<string>, count: nat): (names: seq<string>)
    ensures |names| == count
  {
    seq(count, i requires 0 <= i < count => if 2 * i + 1 < |lines| then lines[2 * i] else UNNAMED)
  }

  /** What addr2line printed, line by line, or that it failed. */
  datatype Printed = Lines(lines: seq<string>) | Failed

  function NamesOf(printed: Printed, count: nat): (names: seq<string>)
    ensures |names| == count
  {
    match printed
    case Failed => seq(count, _ => UNNAMED)
    case Lines(lines) => PairedNames(lines, count)
  }

  method PairLines(printed: Printed, count: nat) returns (functions: seq<string>)
    ensures functions == NamesOf(printed, count)
  {
    if printed.Failed? {
      return seq(count, _ => UNNAMED);
    }
    var lines := printed.lines;
    functions := [];
    var next := 0;
    for index := 0 to count
      invariant next == if 2 * index <= |lines| then 2 * index else |lines|
      invariant functions == PairedNames(lines, index)
    {
      var name := "";
      var complete := false;
      if next < |lines| {
        name := lines[next];
        next := next + 1;
        if next < |lines| {
          next := next + 1;
          complete := true;
        }
      }
      functions := functions + [if complete then name else UNNAMED];
    }
  }

  const UNKNOWN: string := "[unknown]"

  function Shown(name: string): string {
    if name == UNNAMED || name == "" then UNKNOWN else name
  }

  /** The last component of a path. */
  function Filename(path: string): string
    decreases |path|
  {
    if '/' !in path then path else Filename(AfterSlash(path))
  }

  function AfterSlash(path: string): (rest: string)
    requires '/' in path
    ensures |rest| < |path|
  {
    if path[0] == '/' then path[1..] else AfterSlash(path[1..])
  }

  // ----- counting

  /** The names given to the references of all modules. */
  type Naming = map<Reference, string>

  function KeyIn(naming: Naming, r: Option<Reference>): Option<Key> {
    if r.None? then Some(Key(UNKNOWN, UNKNOWN))
    else if r.value in naming then Some(Key(Filename(r.value.location), Shown(naming[r.value])))
    else None
  }

  /** The samples that the naming places under the key. */
  function CountKey(refs: seq<Option<Reference>>, naming: Naming, key: Key): nat {
    if refs == [] then 0
    else CountKey(refs[..|refs| - 1], naming, key)
         + (if refs[|refs| - 1].Some? && KeyIn(naming, refs[|refs| - 1]) == Some(key) then 1 else 0)
  }

  function CountRef(refs: seq<Option<Reference>>, r: Option<Reference>): nat {
    if refs == [] then 0 else CountRef(refs[..|refs| - 1], r) + (if refs[|refs| - 1] == r then 1 else 0)
  }

  /** Naming one more reference moves all of its samples under its key, and no others. */
  lemma {:induction false} NamingMore(refs: seq<Option<Reference>>, naming: Naming, r: Reference, name: string, key: Key)
    requires r !in naming
    ensures CountKey(refs, naming[r := name], key)
         == CountKey(refs, naming, key)
            + (if key == Key(Filename(r.location), Shown(name)) then CountRef(refs, Some(r)) else 0)
  {
    hide Filename, Shown;
    if refs != [] {
      NamingMore(refs[..|refs| - 1], naming, r, name, key);
    }
  }

  type Table = map<Key, nat>

  function CountIn(t: Table, key: Key): nat {
    if key in t then t[key] else 0
  }

  function Added(t: Table, key: Key, count: nat): Table {
    t[key := CountIn(t, key) + count]
  }

  /** The table counts, for every key, the samples that the naming places under it. */
  ghost predicate Tallies(t: Table, refs: seq<Option<Reference>>, naming: Naming) {
    forall key: Key :: CountIn(t, key) == CountKey(refs, naming, key) && (key in t ==> t[key] > 0)
  }

  lemma TalliesMore(t: Table, refs: seq<Option<Reference>>, naming: Naming, r: Reference, name: string)
    requires Tallies(t, refs, naming) && r !in naming && CountRef(refs, Some(r)) > 0
    ensures Tallies(Added(t, Key(Filename(r.location), Shown(name)), CountRef(refs, Some(r))), refs, naming[r := name])
  {
    hide Filename, Shown, CountKey, CountRef;
    forall key: Key {
      NamingMore(refs, naming, r, name, key);
    }
  }

  // ----- the first stage

  type Addresses = map<u64, nat>

  type Groups = map<string, Addresses>

  /** Each reference that occurs, with the number of its samples. */
  ghost predicate GroupsOf(g: Groups, refs: seq<Option<Reference>>) {
    && (forall location, address :: location in g && address in g[location] ==>
          g[location][address] == CountRef(refs, Some(Reference(location, address))) > 0)
    && (forall r: Reference :: Some(r) in refs ==> r.location in g && r.address in g[r.location])
  }

  function GroupIn(g: Groups, location: string): Addresses {
    if location in g then g[location] else map[]
  }

  function AddressIn(a: Addresses, address: u64): nat {
    if address in a then a[address] else 0
  }

  /** ++moduleAddresses[module][address] */
  function Counted(g: Groups, r: Reference): Groups {
    var a := GroupIn(g, r.location);
    g[r.location := a[r.address := AddressIn(a, r.address) + 1]]
  }

  lemma {:induction false} NeverSeen(refs: seq<Option<Reference>>, r: Option<Reference>)
    requires r !in refs
    ensures CountRef(refs, r) == 0
  {
    if refs != [] {
      NeverSeen(refs[..|refs| - 1], r);
    }
  }

  lemma CountRefMore(refs: seq<Option<Reference>>, x: Option<Reference>, r: Option<Reference>)
    ensures CountRef(refs + [x], r) == CountRef(refs, r) + (if x == r then 1 else 0)
  {
    assert (refs + [x])[..|refs|] == refs;
  }

  lemma GroupsMore(g: Groups, refs: seq<Option<Reference>>, r: Reference)
    requires GroupsOf(g, refs)
    ensures GroupsOf(Counted(g, r), refs + [Some(r)])
  {
    hide CountRef;
    var after := Counted(g, r);
    if !(r.location in g && r.address in g[r.location]) {
      NeverSeen(refs, Some(r));
    }
    forall location, address | location in after && address in after[location]
      ensures after[location][address] == CountRef(refs + [Some(r)], Some(Reference(location, address))) > 0
    {
      CountRefMore(refs, Some(r), Some(Reference(location, address)));
      if location == r.location && address == r.address {
        assert Reference(location, address) == r;
      } else {
        assert location in g && address in g[location];
      }
    }
  }

  lemma GroupsSame(g: Groups, refs: seq<Option<Reference>>)
    requires GroupsOf(g, refs)
    ensures GroupsOf(g, refs + [None])
  {
    hide CountRef;
    forall location, address | location in g && address in g[location]
      ensures g[location][address] == CountRef(refs + [None], Some(Reference(location, address))) > 0
    {
      CountRefMore(refs, None, Some(Reference(location, address)));
    }
  }

  /** What the samples' instruction pointers resolve to. */
  function References(samples: seq<u64>, mappings: seq<Mapping>, files: Files): seq<Option<Reference>> {
    seq(|samples|, i requires 0 <= i < |samples| => Resolve(samples[i], mappings, files))
  }

  method GroupByAddress(samples: seq<u64>, mappings: seq<Mapping>, files: Files)
      returns (groups: Groups, unresolved: nat)
    ensures GroupsOf(groups, References(samples, mappings, files))
    ensures unresolved == CountRef(References(samples, mappings, files), None)
  {
    groups, unresolved := map[], 0;
    assert GroupsOf(groups, []) && CountRef([], None) == 0;
    hide CountRef, GroupsOf, Resolve;
    ghost var refs := References(samples, mappings, files);
    assert refs[..0] == [];
    for i := 0 to |samples|
      invariant GroupsOf(groups, refs[..i]) && unresolved == CountRef(refs[..i], None)
    {
      var reference := ResolveAddress(samples[i], mappings, files);
      assert refs[..i + 1] == refs[..i] + [reference];
      CountRefMore(refs[..i], reference, None);
      match reference
      case Some(r) =>
        GroupsMore(groups, refs[..i], r);
        groups := Counted(groups, r);
      case None =>
        GroupsSame(groups, refs[..i]);
        unresolved := unresolved + 1;
    }
    assert refs[..|samples|] == refs;
  }

  // ----- the second stage

  /** addr2line, asked for a batch of addresses of one module. */
  type Tool = (string, seq<u64>) -> Printed

  predicate Ascending(s: seq<u64>) {
    forall i, j :: 0 <= i < j < |s| ==> s[i] < s[j]
  }

  /** The batch asked for a module: its addresses, in ascending order. */
  ghost predicate BatchOf(batch: seq<u64>, a: Addresses) {
    Ascending(batch) && forall address: u64 :: address in batch <==> address in a
  }

  /** The keys of a std::map, in its order. */
  method SortedKeys(a: Addresses) returns (batch: seq<u64>)
    ensures BatchOf(batch, a)
  {
    var left := a.Keys;
    batch := [];
    while left != {}
      invariant left <= a.Keys && Ascending(batch)
      invariant forall address: u64 :: address in batch <==> address in a && address !in left
      invariant forall x: u64, y: u64 :: x in batch && y in left ==> x < y
      decreases left
    {
      var least := Least(left);
      forall i | 0 <= i < |batch|
        ensures batch[i] < least
      {
        assert batch[i] in batch;
      }
      batch := batch + [least];
      left := left - {least};
    }
  }

  method Least(s: set<u64>) returns (least: u64)
    requires s != {}
    ensures least in s && forall x :: x in s ==> least <= x
  {
    least :| least in s;
    var left := s - {least};
    while left != {}
      invariant left <= s && least in s
      invariant forall x :: x in s && x !in left ==> least <= x
      decreases left
    {
      var x :| x in left;
      left := left - {x};
      if x < least {
        least := x;
      }
    }
  }

  /** The naming follows what the tool printed for the first k addresses of a module's batch. */
  ghost predicate NamedBy(naming: Naming, location: string, batch: seq<u64>, k: nat, tool: Tool)
    requires k <= |batch|
  {
    forall i :: 0 <= i < k ==>
      var r := Reference(location, batch[i]);
      r in naming && naming[r] == NamesOf(tool(location, batch), |batch|)[i]
  }

  /** From one naming to a later one, exactly the first k addresses of the batch are named. */
  ghost predicate Extends(naming: Naming, before: Naming, location: string, batch: seq<u64>, k: nat)
    requires k <= |batch|
  {
    && (forall r: Reference :: r in before ==> r in naming && naming[r] == before[r])
    && (forall r: Reference :: r in naming <==> r in before || (r.location == location && r.address in batch[..k]))
  }

  /** The sample counts of one module's addresses. */
  ghost predicate Counts(a: Addresses, location: string, refs: seq<Option<Reference>>) {
    forall address :: address in a ==> a[address] == CountRef(refs, Some(Reference(location, address))) > 0
  }

  lemma NamingStep(before: Naming, naming: Naming, location: string, batch: seq<u64>, k: nat, tool: Tool)
    requires k < |batch| && Ascending(batch)
    requires Extends(naming, before, location, batch, k) && NamedBy(naming, location, batch, k, tool)
    requires forall r: Reference :: r in before ==> r.location != location
    ensures var r := Reference(location, batch[k]);
      var after := naming[r := NamesOf(tool(location, batch), |batch|)[k]];
      r !in naming && Extends(after, before, location, batch, k + 1) && NamedBy(after, location, batch, k + 1, tool)
  {
    hide NamesOf;
    assert batch[..k + 1] == batch[..k] + [batch[k]];
    assert batch[k] !in batch[..k];
  }

  method NameModule(location: string, a: Addresses, before: Table, tool: Tool, ghost named: Naming,
                    ghost refs: seq<Option<Reference>>)
      returns (functions: Table, ghost naming: Naming, ghost batch: seq<u64>)
    requires Tallies(before, refs, named) && Counts(a, location, refs)
    requires forall r: Reference :: r in named ==> r.location != location
    ensures Tallies(functions, refs, naming) && BatchOf(batch, a)
    ensures Extends(naming, named, location, batch, |batch|) && NamedBy(naming, location, batch, |batch|, tool)
  {
    hide Tallies, Filename, Shown, CountRef, NamesOf, KeyIn;
    functions, naming := before, named;
    var addresses := SortedKeys(a);
    batch := addresses;
    var names := PairLines(tool(location, addresses), |addresses|);
    for index := 0 to |addresses|
      invariant Tallies(functions, refs, naming)
      invariant Extends(naming, named, location, batch, index) && NamedBy(naming, location, batch, index, tool)
    {
      var r := Reference(location, addresses[index]);
      assert addresses[index] in a;
      NamingStep(named, naming, location, batch, index, tool);
      TalliesMore(functions, refs, naming, r, names[index]);
      functions := Added(functions, Key(Filename(location), Shown(names[index])), a[addresses[index]]);
      naming := naming[r := names[index]];
    }
  }

  /** Every module's batch and the names it got. */
  ghost predicate AllNamed(naming: Naming, groups: Groups, locations: set<string>, batches: map<string, seq<u64>>,
                           tool: Tool)
  {
    && locations <= groups.Keys
    && (forall r: Reference :: r in naming <==> r.location in locations && r.address in groups[r.location])
    && (forall location :: location in locations ==>
          && location in batches
          && BatchOf(batches[location], groups[location])
          && NamedBy(naming, location, batches[location], |batches[location]|, tool))
  }

  lemma AllNamedMore(naming: Naming, after: Naming, groups: Groups, locations: set<string>,
                     batches: map<string, seq<u64>>, tool: Tool, location: string, batch: seq<u64>)
    requires AllNamed(naming, groups, locations, batches, tool)
    requires location in groups && location !in locations && BatchOf(batch, groups[location])
    requires Extends(after, naming, location, batch, |batch|) && NamedBy(after, location, batch, |batch|, tool)
    ensures AllNamed(after, groups, locations + {location}, batches[location := batch], tool)
  {
    hide NamesOf;
    assert batch[..|batch|] == batch;
    forall other | other in locations
      ensures NamedBy(after, other, batches[other], |batches[other]|, tool)
    {
      assert NamedBy(naming, other, batches[other], |batches[other]|, tool);
    }
  }

  lemma NotYetNamed(naming: Naming, groups: Groups, locations: set<string>, batches: map<string, seq<u64>>,
                    tool: Tool, location: string)
    requires AllNamed(naming, groups, locations, batches, tool) && location !in locations
    ensures forall r: Reference :: r in naming ==> r.location != location
  {
    hide NamedBy, BatchOf;
  }

  method NameGroups(groups: Groups, tool: Tool, ghost refs: seq<Option<Reference>>)
      returns (functions: Table, ghost naming: Naming, ghost batches: map<string, seq<u64>>)
    requires GroupsOf(groups, refs)
    ensures Tallies(functions, refs, naming) && AllNamed(naming, groups, groups.Keys, batches, tool)
    ensures batches.Keys == groups.Keys
  {
    functions, naming, batches := map[], map[], map[];
    assert AllNamed(naming, groups, {}, batches, tool);
    hide Tallies, AllNamed, Extends, NamedBy, BatchOf;
    NothingNamed(refs);
    var left := groups.Keys;
    ghost var done: set<string> := {};
    while left != {}
      invariant done !! left && done + left == groups.Keys
      invariant Tallies(functions, refs, naming) && AllNamed(naming, groups, done, batches, tool)
      invariant batches.Keys == done
      decreases left
    {
      var location :| location in left;
      assert Counts(groups[location], location, refs);
      NotYetNamed(naming, groups, done, batches, tool, location);
      ghost var named, batch;
      functions, named, batch := NameModule(location, groups[location], functions, tool, naming, refs);
      AllNamedMore(naming, named, groups, done, batches, tool, location, batch);
      naming, batches, done, left := named, batches[location := batch], done + {location}, left - {location};
    }
    assert done == groups.Keys;
  }

  lemma {:induction false} NothingNamed(refs: seq<Option<Reference>>)
    ensures Tallies(map[], refs, map[])
  {
    forall key: Key
      ensures CountKey(refs, map[], key) == 0
    {
      NothingCounted(refs, key);
    }
  }

  lemma {:induction false} NothingCounted(refs: seq<Option<Reference>>, key: Key)
    ensures CountKey(refs, map[], key) == 0
  {
    if refs != [] {
      NothingCounted(refs[..|refs| - 1], key);
    }
  }

  // ----- direct counting

  /** The samples whose function, resolved or not, is the key: the specification. */
  function DirectCount(refs: seq<Option<Reference>>, naming: Naming, key: Key): nat {
    if refs == [] then 0
    else DirectCount(refs[..|refs| - 1], naming, key) + (if KeyIn(naming, refs[|refs| - 1]) == Some(key) then 1 else 0)
  }

  const UNRESOLVED: Key := Key(UNKNOWN, UNKNOWN)

  lemma {:induction false} DirectCountSplits(refs: seq<Option<Reference>>, naming: Naming, key: Key)
    ensures DirectCount(refs, naming, key)
         == CountKey(refs, naming, key) + (if key == UNRESOLVED then CountRef(refs, None) else 0)
  {
    hide Filename, Shown;
    if refs != [] {
      DirectCountSplits(refs[..|refs| - 1], naming, key);
    }
  }

  predicate DistinctKeys(fs: seq<FunctionSample>) {
    forall i, j :: 0 <= i < j < |fs| ==> KeyOf(fs[i]) != KeyOf(fs[j])
  }

  /** The list holds each key that some sample has, once, with its number of samples. */
  ghost predicate ListsCounts(fs: seq<FunctionSample>, refs: seq<Option<Reference>>, naming: Naming) {
    && DistinctKeys(fs)
    && (forall i :: 0 <= i < |fs| ==> fs[i].samples == DirectCount(refs, naming, KeyOf(fs[i])) > 0)
    && (forall key: Key :: DirectCount(refs, naming, key) > 0 ==> exists i :: 0 <= i < |fs| && KeyOf(fs[i]) == key)
  }

  /** Each sample is under one listed key. */
  ghost predicate Complete(fs: seq<FunctionSample>, refs: seq<Option<Reference>>, naming: Naming) {
    forall r :: r in refs ==> KeyIn(naming, r).Some? && exists i :: 0 <= i < |fs| && KeyIn(naming, r) == Some(KeyOf(fs[i]))
  }

  function SumSamples(fs: seq<FunctionSample>): nat {
    if fs == [] then 0 else SumSamples(fs[1..]) + fs[0].samples
  }

  function SumCounts(fs: seq<FunctionSample>, refs: seq<Option<Reference>>, naming: Naming): nat {
    if fs == [] then 0 else SumCounts(fs[1..], refs, naming) + DirectCount(refs, naming, KeyOf(fs[0]))
  }

  lemma DirectCountMore(refs: seq<Option<Reference>>, x: Option<Reference>, naming: Naming, key: Key)
    ensures DirectCount(refs + [x], naming, key)
         == DirectCount(refs, naming, key) + (if KeyIn(naming, x) == Some(key) then 1 else 0)
  {
    assert (refs + [x])[..|refs|] == refs;
  }

  lemma {:induction false} SumCountsMore(fs: seq<FunctionSample>, refs: seq<Option<Reference>>, x: Option<Reference>,
                                         naming: Naming)
    requires DistinctKeys(fs)
    ensures SumCounts(fs, refs + [x], naming) == SumCounts(fs, refs, naming)
            + (if exists i :: 0 <= i < |fs| && KeyIn(naming, x) == Some(KeyOf(fs[i])) then 1 else 0)
  {
    hide KeyIn, KeyOf, DirectCount;
    if fs != [] {
      SumCountsMore(fs[1..], refs, x, naming);
      DirectCountMore(refs, x, naming, KeyOf(fs[0]));
      if KeyIn(naming, x) == Some(KeyOf(fs[0])) {
        assert forall i :: 0 <= i < |fs[1..]| ==> KeyOf(fs[1..][i]) != KeyOf(fs[0]);
      } else if i :| 0 <= i < |fs| && KeyIn(naming, x) == Some(KeyOf(fs[i])) {
        assert KeyIn(naming, x) == Some(KeyOf(fs[1..][i - 1]));
      }
    }
  }

  lemma {:induction false} NoRefsNoCounts(fs: seq<FunctionSample>, naming: Naming)
    ensures SumCounts(fs, [], naming) == 0
  {
    if fs != [] {
      NoRefsNoCounts(fs[1..], naming);
    }
  }

  lemma {:induction false} SumCountsIsAll(fs: seq<FunctionSample>, refs: seq<Option<Reference>>, naming: Naming)
    requires DistinctKeys(fs) && Complete(fs, refs, naming)
    ensures SumCounts(fs, refs, naming) == |refs|
  {
    hide KeyIn;
    if refs == [] {
      NoRefsNoCounts(fs, naming);
    } else {
      var front, last := refs[..|refs| - 1], refs[|refs| - 1];
      assert refs == front + [last];
      SumCountsIsAll(fs, front, naming);
      SumCountsMore(fs, front, last, naming);
    }
  }

  // ----- the whole symbolization

  /** The table after the unresolved samples have been merged in. */
  ghost predicate TalliesAll(t: Table, refs: seq<Option<Reference>>, naming: Naming) {
    forall key: Key :: CountIn(t, key) == DirectCount(refs, naming, key) && (key in t ==> t[key] > 0)
  }

  method MergeUnresolved(t: Table, unresolved: nat, ghost refs: seq<Option<Reference>>, ghost naming: Naming)
      returns (functions: Table)
    requires Tallies(t, refs, naming) && unresolved == CountRef(refs, None)
    ensures TalliesAll(functions, refs, naming)
  {
    hide CountKey, DirectCount, CountRef;
    functions := if unresolved != 0 then Added(t, UNRESOLVED, unresolved) else t;
    forall key: Key {
      DirectCountSplits(refs, naming, key);
    }
  }

  ghost predicate ListsTable(fs: seq<FunctionSample>, t: Table, keys: set<Key>) {
    && DistinctKeys(fs)
    && keys <= t.Keys
    && (forall i :: 0 <= i < |fs| ==> KeyOf(fs[i]) in keys && fs[i].samples == t[KeyOf(fs[i])])
    && (forall key :: key in keys ==> exists i :: 0 <= i < |fs| && KeyOf(fs[i]) == key)
  }

  lemma ListsTableMore(fs: seq<FunctionSample>, t: Table, keys: set<Key>, key: Key)
    requires ListsTable(fs, t, keys) && key in t && key !in keys
    ensures ListsTable(fs + [FunctionSample(key.location, key.name, t[key])], t, keys + {key})
  {
    var f := FunctionSample(key.location, key.name, t[key]);
    var after := fs + [f];
    assert KeyOf(f) == key && KeyOf(after[|fs|]) == key;
    forall other | other in keys + {key}
      ensures exists i :: 0 <= i < |after| && KeyOf(after[i]) == other
    {
      if other in keys {
        var i :| 0 <= i < |fs| && KeyOf(fs[i]) == other;
        assert KeyOf(after[i]) == other;
      }
    }
  }

  method ListTable(t: Table) returns (fs: seq<FunctionSample>)
    ensures ListsTable(fs, t, t.Keys)
  {
    fs := [];
    var left := t.Keys;
    ghost var done: set<Key> := {};
    assert ListsTable(fs, t, done);
    hide ListsTable;
    while left != {}
      invariant done !! left && done + left == t.Keys && ListsTable(fs, t, done)
      decreases left
    {
      var key :| key in left;
      ListsTableMore(fs, t, done, key);
      fs := fs + [FunctionSample(key.location, key.name, t[key])];
      left, done := left - {key}, done + {key};
    }
    assert done == t.Keys;
  }

  lemma TableListed(fs: seq<FunctionSample>, t: Table, refs: seq<Option<Reference>>, naming: Naming)
    requires ListsTable(fs, t, t.Keys) && TalliesAll(t, refs, naming)
    ensures ListsCounts(fs, refs, naming)
  {
    hide DirectCount, KeyOf;
    forall i | 0 <= i < |fs|
      ensures fs[i].samples == DirectCount(refs, naming, KeyOf(fs[i])) > 0
    {
      assert CountIn(t, KeyOf(fs[i])) == DirectCount(refs, naming, KeyOf(fs[i]));
    }
    forall key: Key | DirectCount(refs, naming, key) > 0
      ensures exists i :: 0 <= i < |fs| && KeyOf(fs[i]) == key
    {
      assert CountIn(t, key) == DirectCount(refs, naming, key);
      assert key in t;
    }
  }

  /** Sorting does not change what is listed. */
  lemma ListsCountsPermuted(s: seq<FunctionSample>, t: seq<FunctionSample>, refs: seq<Option<Reference>>, naming: Naming)
    requires ListsCounts(s, refs, naming) && multiset(s) == multiset(t)
    ensures ListsCounts(t, refs, naming)
  {
    hide DirectCount;
    forall i | 0 <= i < |t|
      ensures t[i].samples == DirectCount(refs, naming, KeyOf(t[i])) > 0
    {
      assert t[i] in multiset(s);
    }
    forall key: Key | DirectCount(refs, naming, key) > 0
      ensures exists i :: 0 <= i < |t| && KeyOf(t[i]) == key
    {
      var k :| 0 <= k < |s| && KeyOf(s[k]) == key;
      assert s[k] in multiset(t);
    }
    PermutedDistinct(s, t, KeyOf);
  }

  // ----- where each sample is listed

  /** The last component of a path: it has no slash and is the whole path or follows a slash. */
  ghost predicate LastComponent(name: string, path: string) {
    '/' !in name && (path == name || exists d: string :: path == d + "/" + name)
  }

  /** The name on line 2k of the tool's output, if line 2k + 1 is there as well. */
  predicate NameAt(printed: Printed, k: nat, name: string) {
    if printed.Lines? && 2 * k + 1 < |printed.lines| then name == printed.lines[2 * k] else name == "??"
  }

  ghost predicate ListedUnder(key: Key, location: string, name: string) {
    LastComponent(key.location, location) && key.name == if name == "??" || name == "" then "[unknown]" else name
  }

  /** A resolved sample is listed under its file and the name printed for its place in the batch. */
  ghost predicate Places(key: Key, r: Option<Reference>, batches: map<string, seq<u64>>, tool: Tool) {
    if r.None? then key == Key("[unknown]", "[unknown]")
    else
      && r.value.location in batches
      && var batch := batches[r.value.location];
      exists k: nat, name :: k < |batch| && batch[k] == r.value.address
        && NameAt(tool(r.value.location, batch), k, name) && ListedUnder(key, r.value.location, name)
  }

  /** One key for each sample. */
  ghost predicate KeysOf(keys: seq<Key>, refs: seq<Option<Reference>>, batches: map<string, seq<u64>>, tool: Tool) {
    |keys| == |refs| && forall i :: 0 <= i < |refs| ==> Places(keys[i], refs[i], batches, tool)
  }

  /** The batch of each file holds exactly the addresses that samples have in it, in ascending order. */
  ghost predicate BatchesOf(batches: map<string, seq<u64>>, refs: seq<Option<Reference>>) {
    && (forall location :: location in batches ==> Ascending(batches[location]))
    && (forall r: Reference :: (r.location in batches && r.address in batches[r.location]) <==> Some(r) in refs)
  }

  /** The list holds each key once, with the number of samples that have it. */
  ghost predicate ListsKeys(fs: seq<FunctionSample>, keys: seq<Key>) {
    && DistinctKeys(fs)
    && (forall j :: 0 <= j < |fs| ==> fs[j].samples == multiset(keys)[Key(fs[j].location, fs[j].name)] > 0)
    && (forall i :: 0 <= i < |keys| ==>
          exists j :: 0 <= j < |fs| && fs[j].location == keys[i].location && fs[j].name == keys[i].name)
  }

  lemma {:induction false} FilenameIsLast(path: string)
    ensures LastComponent(Filename(path), path)
    decreases |path|
  {
    if '/' in path {
      var rest := AfterSlash(path);
      var d := AfterSlashIs(path);
      FilenameIsLast(rest);
      var name := Filename(path);
      if rest == name {
        assert path == d + "/" + name;
      } else {
        var e :| rest == e + "/" + name;
        assert path == (d + "/" + e) + "/" + name;
      }
    }
  }

  lemma {:induction false} AfterSlashIs(path: string) returns (d: string)
    requires '/' in path
    ensures path == d + "/" + AfterSlash(path)
  {
    if path[0] == '/' {
      d := "";
    } else {
      var rest := AfterSlashIs(path[1..]);
      d := [path[0]] + rest;
    }
  }

  lemma NamesAt(printed: Printed, count: nat, k: nat)
    requires k < count
    ensures NameAt(printed, k, NamesOf(printed, count)[k])
  {
  }

  lemma ShownUnder(location: string, name: string)
    ensures ListedUnder(Key(Filename(location), Shown(name)), location, name)
  {
    FilenameIsLast(location);
  }

  lemma PlacedBy(naming: Naming, groups: Groups, batches: map<string, seq<u64>>, tool: Tool, r: Option<Reference>)
    requires AllNamed(naming, groups, groups.Keys, batches, tool)
    requires r.Some? ==> r.value.location in groups && r.value.address in groups[r.value.location]
    ensures KeyIn(naming, r).Some? && Places(KeyIn(naming, r).value, r, batches, tool)
  {
    hide NamesOf, Filename, Shown, NameAt, ListedUnder;
    if r.Some? {
      var location := r.value.location;
      var batch := batches[location];
      assert r.value.address in batch;
      var k :| 0 <= k < |batch| && batch[k] == r.value.address;
      assert r.value == Reference(location, batch[k]);
      NamesAt(tool(location, batch), |batch|, k);
      ShownUnder(location, naming[r.value]);
    }
  }

  function KeysIn(refs: seq<Option<Reference>>, naming: Naming): (keys: seq<Key>)
    requires forall r :: r in refs ==> KeyIn(naming, r).Some?
    ensures |keys| == |refs|
  {
    seq(|refs|, i requires 0 <= i < |refs| => KeyIn(naming, refs[i]).value)
  }

  lemma {:induction false} DirectCountIs(refs: seq<Option<Reference>>, naming: Naming, key: Key)
    requires forall r :: r in refs ==> KeyIn(naming, r).Some?
    ensures DirectCount(refs, naming, key) == multiset(KeysIn(refs, naming))[key]
  {
    hide KeyIn;
    if refs != [] {
      var front, last := refs[..|refs| - 1], refs[|refs| - 1];
      assert refs == front + [last];
      DirectCountIs(front, naming, key);
      assert KeysIn(refs, naming) == KeysIn(front, naming) + [KeyIn(naming, last).value];
    }
  }

  lemma ListsCountsOfKeys(fs: seq<FunctionSample>, refs: seq<Option<Reference>>, naming: Naming)
    requires ListsCounts(fs, refs, naming) && forall r :: r in refs ==> KeyIn(naming, r).Some?
    ensures ListsKeys(fs, KeysIn(refs, naming))
  {
    hide KeyIn, DirectCount, KeysIn;
    var keys := KeysIn(refs, naming);
    forall key: Key
      ensures DirectCount(refs, naming, key) == multiset(keys)[key]
    {
      DirectCountIs(refs, naming, key);
    }
    forall i | 0 <= i < |keys|
      ensures exists j :: 0 <= j < |fs| && fs[j].location == keys[i].location && fs[j].name == keys[i].name
    {
      assert keys[i] in multiset(keys);
      assert DirectCount(refs, naming, keys[i]) > 0;
      var j :| 0 <= j < |fs| && KeyOf(fs[j]) == keys[i];
    }
  }

  lemma BatchesAre(naming: Naming, groups: Groups, batches: map<string, seq<u64>>, tool: Tool,
                   refs: seq<Option<Reference>>)
    requires AllNamed(naming, groups, groups.Keys, batches, tool) && GroupsOf(groups, refs)
    requires batches.Keys == groups.Keys
    ensures BatchesOf(batches, refs)
  {
    hide NamedBy, CountRef;
    forall r: Reference
      ensures (r.location in batches && r.address in batches[r.location]) <==> Some(r) in refs
    {
      if r.location in groups && r.address in groups[r.location] && Some(r) !in refs {
        NeverSeen(refs, Some(r));
      }
    }
  }

  /** What the two stages count is what the samples' keys say. */
  lemma CountedUnderKeys(fs: seq<FunctionSample>, refs: seq<Option<Reference>>, groups: Groups, naming: Naming,
                         batches: map<string, seq<u64>>, tool: Tool)
    requires ListsCounts(fs, refs, naming) && GroupsOf(groups, refs)
    requires AllNamed(naming, groups, groups.Keys, batches, tool)
    ensures (forall r :: r in refs ==> KeyIn(naming, r).Some?)
         && KeysOf(KeysIn(refs, naming), refs, batches, tool) && ListsKeys(fs, KeysIn(refs, naming))
  {
    hide ListsCounts, ListsKeys, Places, AllNamed, KeyIn, CountRef;
    forall r | r in refs
      ensures KeyIn(naming, r).Some? && Places(KeyIn(naming, r).value, r, batches, tool)
    {
      PlacedBy(naming, groups, batches, tool, r);
    }
    ListsCountsOfKeys(fs, refs, naming);
  }

  method SymbolizeSamples(samples: seq<u64>, mappings: seq<Mapping>, files: Files, tool: Tool)
      returns (result: seq<FunctionSample>, ghost groups: Groups, ghost naming: Naming, ghost batches: map<string, seq<u64>>,
               ghost keys: seq<Key>)
    ensures KeysOf(keys, References(samples, mappings, files), batches, tool) && ListsKeys(result, keys)
    ensures BatchesOf(batches, References(samples, mappings, files))
    ensures ListsCounts(result, References(samples, mappings, files), naming)
    ensures forall i, j :: 0 <= i < j < |result| ==> result[i].samples >= result[j].samples
    ensures GroupsOf(groups, References(samples, mappings, files))
    ensures AllNamed(naming, groups, groups.Keys, batches, tool)
  {
    hide ListsCounts, ListsTable, TalliesAll, Tallies, GroupsOf, AllNamed, References, KeysOf, KeysIn, KeyIn,
      ListsKeys, BatchesOf;
    ghost var refs := References(samples, mappings, files);
    var byAddress, unresolved := GroupByAddress(samples, mappings, files);
    groups := byAddress;
    var functions;
    functions, naming, batches := NameGroups(byAddress, tool, refs);
    functions := MergeUnresolved(functions, unresolved, refs, naming);
    var listed := ListTable(functions);
    TableListed(listed, functions, refs, naming);
    var bySamples := (f: FunctionSample) => -(f.samples as real);
    result := SortBy(listed, bySamples);
    ListsCountsPermuted(listed, result, refs, naming);
    CountedUnderKeys(result, refs, groups, naming, batches, tool);
    BatchesAre(naming, groups, batches, tool, refs);
    keys := KeysIn(refs, naming);
    forall i, j | 0 <= i < j < |result|
      ensures result[i].samples >= result[j].samples
    {
      assert bySamples(result[i]) <= bySamples(result[j]);
    }
  }

  lemma {:induction false} CountPositive(refs: seq<Option<Reference>>, naming: Naming, r: Option<Reference>, key: Key)
    requires r in refs && KeyIn(naming, r) == Some(key)
    ensures DirectCount(refs, naming, key) > 0
  {
    hide KeyIn;
    var front, last := refs[..|refs| - 1], refs[|refs| - 1];
    if last != r {
      assert refs == front + [last];
      CountPositive(front, naming, r, key);
    }
  }

  lemma {:induction false} SumsAgree(fs: seq<FunctionSample>, refs: seq<Option<Reference>>, naming: Naming)
    requires forall i :: 0 <= i < |fs| ==> fs[i].samples == DirectCount(refs, naming, KeyOf(fs[i]))
    ensures SumSamples(fs) == SumCounts(fs, refs, naming)
  {
    hide DirectCount, KeyOf;
    if fs != [] {
      SumsAgree(fs[1..], refs, naming);
    }
  }

  /** No sample is lost or counted twice: the listed counts add up to the number of samples. */
  lemma SamplesConserved(fs: seq<FunctionSample>, refs: seq<Option<Reference>>, groups: Groups, naming: Naming,
                         batches: map<string, seq<u64>>, tool: Tool)
    requires ListsCounts(fs, refs, naming) && GroupsOf(groups, refs)
    requires AllNamed(naming, groups, groups.Keys, batches, tool)
    ensures SumSamples(fs) == |refs|
  {
    hide DirectCount, SumCounts, SumSamples, KeyOf, NamedBy, BatchOf, CountRef;
    forall r | r in refs
      ensures KeyIn(naming, r).Some?
      ensures exists i :: 0 <= i < |fs| && KeyIn(naming, r) == Some(KeyOf(fs[i]))
    {
      CountPositive(refs, naming, r, KeyIn(naming, r).value);
    }
    SumsAgree(fs, refs, naming);
    SumCountsIsAll(fs, refs, naming);
  }
}
