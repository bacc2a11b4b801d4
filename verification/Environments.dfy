/** Overriding environment variables (src/process/process_runner.cpp:432-449, 481-486). */
module Environments {
  import opened Results
  import opened Sequences

  datatype Override = Override(name: string, value: string)

  datatype EnvironmentError = InvalidName(name: string)

  predicate ValidName(name: string) {
    name != "" && '=' !in name
  }

  /** The name of an entry, if it has the form name=value. */
  function NameOf(entry: string): Option<string> {
    if entry == "" then None
    else if entry[0] == '=' then Some("")
    else
      var rest := NameOf(entry[1..]);
      if rest.None? then None else Some([entry[0]] + rest.value)
  }

  /** An entry belongs to a name if it starts with the name and an equals sign. */
  predicate Sets(entry: string, name: string) {
    name + "=" <= entry
  }

  lemma {:induction false} SetsIsNamed(entry: string, name: string)
    requires '=' !in name
    ensures Sets(entry, name) <==> NameOf(entry) == Some(name)
  {
    if entry != "" {
      if name == "" {
        assert (entry[0] == '=') == Sets(entry, name);
      } else {
        assert name == [name[0]] + name[1..];
        SetsIsNamed(entry[1..], name[1..]);
        assert name[0] != '=';
        assert name + "=" == [name[0]] + (name[1..] + "=");
        assert entry == [entry[0]] + entry[1..];
      }
    }
  }

  function EntryOf(o: Override): string {
    o.name + "=" + o.value
  }

  lemma EntryIsNamed(o: Override)
    requires '=' !in o.name
    ensures NameOf(EntryOf(o)) == Some(o.name)
  {
    SetsIsNamed(EntryOf(o), o.name);
  }

  /** The entries without those of one name. */
  function Without(entries: seq<string>, name: string): seq<string> {
    if entries == [] then []
    else
      var rest := Without(entries[..|entries| - 1], name);
      if NameOf(entries[|entries| - 1]) == Some(name) then rest else rest + [entries[|entries| - 1]]
  }

  /** setValue: every entry of the name is erased and one is added at the end. */
  method SetValue(entries: seq<string>, o: Override) returns (r: Result<seq<string>, EnvironmentError>)
    ensures r == if ValidName(o.name) then Ok(Without(entries, o.name) + [EntryOf(o)]) else Err(InvalidName(o.name))
  {
    if o.name == "" || '=' in o.name {
      return Err(InvalidName(o.name));
    }
    var prefix := o.name + "=";
    var kept: seq<string> := [];
    for i := 0 to |entries|
      invariant kept == Without(entries[..i], o.name)
    {
      SetsIsNamed(entries[i], o.name);
      assert entries[..i + 1][..i] == entries[..i];
      if !(prefix <= entries[i]) {
        kept := kept + [entries[i]];
      }
    }
    assert entries[..|entries|] == entries;
    r := Ok(kept + [prefix + o.value]);
  }

  // ----- all overrides together

  predicate AllValid(os: seq<Override>) {
    forall i :: 0 <= i < |os| ==> ValidName(os[i].name)
  }

  predicate Overrides(os: seq<Override>, name: Option<string>) {
    exists i :: 0 <= i < |os| && Some(os[i].name) == name
  }

  /** The inherited entries that no override names, in their order. */
  function Inherited(entries: seq<string>, os: seq<Override>): seq<string> {
    if entries == [] then []
    else
      var rest := Inherited(entries[..|entries| - 1], os);
      if Overrides(os, NameOf(entries[|entries| - 1])) then rest else rest + [entries[|entries| - 1]]
  }

  /** One entry for each name that is overridden, with the value it was given last, in the order
      of those last overrides. */
  function LastSettings(os: seq<Override>): seq<string> {
    if os == [] then []
    else
      var rest := LastSettings(os[1..]);
      if Overrides(os[1..], Some(os[0].name)) then rest else [EntryOf(os[0])] + rest
  }

  function Overridden(entries: seq<string>, os: seq<Override>): seq<string> {
    Inherited(entries, os) + LastSettings(os)
  }

  lemma {:induction false} WithoutConcat(s: seq<string>, t: seq<string>, name: string)
    ensures Without(s + t, name) == Without(s, name) + Without(t, name)
  {
    if t == [] {
      assert s + t == s;
    } else {
      var front := t[..|t| - 1];
      assert (s + t)[..|s + t| - 1] == s + front;
      WithoutConcat(s, front, name);
    }
  }

  lemma OverridesMore(os: seq<Override>, o: Override, name: Option<string>)
    ensures Overrides(os + [o], name) <==> Overrides(os, name) || Some(o.name) == name
  {
    if i :| 0 <= i < |os| && Some(os[i].name) == name {
      assert Some((os + [o])[i].name) == name;
    }
    if Some(o.name) == name {
      assert Some((os + [o])[|os|].name) == name;
    }
  }

  lemma {:induction false} InheritedMore(entries: seq<string>, os: seq<Override>, o: Override)
    ensures Inherited(entries, os + [o]) == Without(Inherited(entries, os), o.name)
  {
    hide Overrides;
    if entries != [] {
      var front, last := entries[..|entries| - 1], entries[|entries| - 1];
      InheritedMore(front, os, o);
      OverridesMore(os, o, NameOf(last));
      if !Overrides(os, NameOf(last)) {
        var before := Inherited(front, os);
        assert (before + [last])[..|before|] == before;
      }
    }
  }

  /** Settings of other names stay in front. */
  lemma KeptSetting(first: Override, rest: seq<string>, o: Override)
    requires '=' !in first.name && first.name != o.name
    ensures [EntryOf(first)] + (Without(rest, o.name) + [EntryOf(o)])
         == Without([EntryOf(first)] + rest, o.name) + [EntryOf(o)]
  {
    hide EntryOf, NameOf;
    EntryIsNamed(first);
    WithoutConcat([EntryOf(first)], rest, o.name);
    WithoutOne(EntryOf(first), o.name);
    Assoc([EntryOf(first)], Without(rest, o.name), [EntryOf(o)]);
  }

  lemma DroppedSetting(first: Override, rest: seq<string>, o: Override)
    requires '=' !in first.name && first.name == o.name
    ensures Without([EntryOf(first)] + rest, o.name) == Without(rest, o.name)
  {
    hide EntryOf, NameOf;
    EntryIsNamed(first);
    WithoutConcat([EntryOf(first)], rest, o.name);
    WithoutOne(EntryOf(first), o.name);
    assert [] + Without(rest, o.name) == Without(rest, o.name);
  }

  lemma {:induction false} LastSettingsMore(os: seq<Override>, o: Override)
    requires AllValid(os)
    ensures LastSettings(os + [o]) == Without(LastSettings(os), o.name) + [EntryOf(o)]
  {
    if os == [] {
      assert os + [o] == [o] && [o][1..] == [];
    } else {
      hide Overrides, EntryOf, NameOf, Without;
      var tail := os[1..];
      assert (os + [o])[1..] == tail + [o];
      LastSettingsMore(tail, o);
      OverridesMore(tail, o, Some(os[0].name));
      if !Overrides(tail, Some(os[0].name)) {
        if os[0].name == o.name {
          DroppedSetting(os[0], LastSettings(tail), o);
        } else {
          KeptSetting(os[0], LastSettings(tail), o);
        }
      }
    }
  }

  lemma WithoutOne(entry: string, name: string)
    ensures Without([entry], name) == if NameOf(entry) == Some(name) then [] else [entry]
  {
    assert [entry][..0] == [];
  }

  // ----- what the entries are

  /** Nothing later sets the same name. */
  predicate LastOf(os: seq<Override>, k: int) {
    0 <= k < |os| && forall j :: k < j < |os| ==> os[j].name != os[k].name
  }

  /** The entry is there, and no other sets the name. */
  ghost predicate SetOnce(entries: seq<string>, name: string, entry: string) {
    exists i :: 0 <= i < |entries| && OnlyAt(entries, name, entry, i)
  }

  predicate OnlyAt(entries: seq<string>, name: string, entry: string, i: nat)
    requires i < |entries|
  {
    entries[i] == entry && forall j :: 0 <= j < |entries| && name + "=" <= entries[j] ==> j == i
  }

  predicate NamedIn(os: seq<Override>, entry: string) {
    exists k :: 0 <= k < |os| && os[k].name + "=" <= entry
  }

  predicate GivenIn(os: seq<Override>, entry: string) {
    exists k :: 0 <= k < |os| && entry == os[k].name + "=" + os[k].value
  }

  /** Each overridden name is set once, to what it was given last; entries of other names are as many
      as before, and there is nothing else. */
  ghost predicate Environs(after: seq<string>, entries: seq<string>, os: seq<Override>) {
    && (forall k :: LastOf(os, k) ==> SetOnce(after, os[k].name, os[k].name + "=" + os[k].value))
    && (forall entry :: !NamedIn(os, entry) ==> multiset(after)[entry] == multiset(entries)[entry])
    && (forall i :: 0 <= i < |after| ==> (after[i] in entries && !NamedIn(os, after[i])) || GivenIn(os, after[i]))
  }

  lemma NamedIs(os: seq<Override>, entry: string)
    requires AllValid(os)
    ensures NamedIn(os, entry) <==> Overrides(os, NameOf(entry))
  {
    forall k | 0 <= k < |os|
      ensures os[k].name + "=" <= entry <==> NameOf(entry) == Some(os[k].name)
    {
      SetsIsNamed(entry, os[k].name);
    }
  }

  lemma {:induction false} InheritedAre(entries: seq<string>, os: seq<Override>, entry: string)
    ensures multiset(Inherited(entries, os))[entry] == if Overrides(os, NameOf(entry)) then 0 else multiset(entries)[entry]
  {
    hide Overrides, NameOf;
    if entries != [] {
      var front, last := entries[..|entries| - 1], entries[|entries| - 1];
      assert entries == front + [last];
      InheritedAre(front, os, entry);
    }
  }

  predicate DistinctNames(entries: seq<string>) {
    forall i, j :: 0 <= i < j < |entries| ==> NameOf(entries[i]) != NameOf(entries[j])
  }

  lemma {:induction false} SettingsAre(os: seq<Override>)
    requires AllValid(os)
    ensures forall i :: 0 <= i < |LastSettings(os)| ==>
      GivenIn(os, LastSettings(os)[i]) && Overrides(os, NameOf(LastSettings(os)[i]))
    ensures DistinctNames(LastSettings(os))
  {
    if os != [] {
      var rest, all := LastSettings(os[1..]), LastSettings(os);
      SettingsAre(os[1..]);
      EntryIsNamed(os[0]);
      forall i | 0 <= i < |rest|
        ensures GivenIn(os, rest[i]) && Overrides(os, NameOf(rest[i]))
      {
        GivenLater(os, rest[i]);
      }
      FirstGiven(os);
    }
  }

  lemma GivenLater(os: seq<Override>, entry: string)
    requires os != []
    ensures GivenIn(os[1..], entry) ==> GivenIn(os, entry)
    ensures Overrides(os[1..], NameOf(entry)) ==> Overrides(os, NameOf(entry))
  {
    if k :| 0 <= k < |os[1..]| && entry == os[1..][k].name + "=" + os[1..][k].value {
      assert entry == os[k + 1].name + "=" + os[k + 1].value;
    }
    if k :| 0 <= k < |os[1..]| && Some(os[1..][k].name) == NameOf(entry) {
      assert Some(os[k + 1].name) == NameOf(entry);
    }
  }

  lemma FirstGiven(os: seq<Override>)
    requires AllValid(os) && os != []
    ensures GivenIn(os, EntryOf(os[0])) && Overrides(os, NameOf(EntryOf(os[0])))
  {
    EntryIsNamed(os[0]);
    hide NameOf;
    assert EntryOf(os[0]) == os[0].name + "=" + os[0].value;
  }

  lemma {:induction false} LastIsSet(os: seq<Override>, k: nat) returns (i: nat)
    requires LastOf(os, k)
    ensures i < |LastSettings(os)| && LastSettings(os)[i] == EntryOf(os[k])
  {
    hide EntryOf;
    if k == 0 {
      assert !Overrides(os[1..], Some(os[0].name));
      i := 0;
    } else {
      var j := LastIsSet(os[1..], k - 1);
      i := if Overrides(os[1..], Some(os[0].name)) then j else j + 1;
    }
  }

  lemma InheritedUnnamed(entries: seq<string>, os: seq<Override>, i: nat)
    requires i < |Inherited(entries, os)|
    ensures !Overrides(os, NameOf(Inherited(entries, os)[i])) && Inherited(entries, os)[i] in entries
  {
    hide Inherited, Overrides, NameOf;
    InheritedAre(entries, os, Inherited(entries, os)[i]);
    assert Inherited(entries, os)[i] in multiset(Inherited(entries, os));
  }

  lemma KeptElsewhere(entries: seq<string>, os: seq<Override>, k: nat)
    requires AllValid(os) && k < |os|
    ensures forall j :: 0 <= j < |Inherited(entries, os)| ==> !(os[k].name + "=" <= Inherited(entries, os)[j])
  {
    hide Inherited, NameOf;
    forall j | 0 <= j < |Inherited(entries, os)|
      ensures !(os[k].name + "=" <= Inherited(entries, os)[j])
    {
      InheritedUnnamed(entries, os, j);
      SetsIsNamed(Inherited(entries, os)[j], os[k].name);
    }
  }

  lemma SetElsewhere(os: seq<Override>, k: nat, i: nat)
    requires AllValid(os) && k < |os| && i < |LastSettings(os)| && LastSettings(os)[i] == EntryOf(os[k])
    ensures forall j :: 0 <= j < |LastSettings(os)| && os[k].name + "=" <= LastSettings(os)[j] ==> j == i
  {
    hide LastSettings, NameOf, EntryOf;
    SettingsAre(os);
    EntryIsNamed(os[k]);
    forall j | 0 <= j < |LastSettings(os)| && os[k].name + "=" <= LastSettings(os)[j]
      ensures j == i
    {
      SetsIsNamed(LastSettings(os)[j], os[k].name);
    }
  }

  lemma SetOnceIs(entries: seq<string>, os: seq<Override>, k: nat)
    requires AllValid(os) && LastOf(os, k)
    ensures SetOnce(Overridden(entries, os), os[k].name, EntryOf(os[k]))
  {
    hide LastSettings, Inherited, NameOf, EntryOf;
    var i := LastIsSet(os, k);
    KeptElsewhere(entries, os, k);
    SetElsewhere(os, k, i);
    var all, n := Overridden(entries, os), |Inherited(entries, os)|;
    assert forall j :: n <= j < |all| ==> all[j] == LastSettings(os)[j - n];
    assert OnlyAt(all, os[k].name, EntryOf(os[k]), n + i);
  }

  lemma NotGiven(os: seq<Override>, entry: string)
    requires AllValid(os) && !Overrides(os, NameOf(entry))
    ensures multiset(LastSettings(os))[entry] == 0
  {
    hide LastSettings, NameOf, Overrides;
    SettingsAre(os);
    assert entry !in LastSettings(os);
  }

  /** Every list of valid overrides, on every list of entries. */
  lemma OverriddenEnvirons(entries: seq<string>, os: seq<Override>)
    requires AllValid(os)
    ensures Environs(Overridden(entries, os), entries, os)
  {
    hide LastSettings, Inherited, NameOf, Overrides, NamedIn, GivenIn, AllValid, SetOnce;
    var kept, settings := Inherited(entries, os), LastSettings(os);
    forall k | LastOf(os, k)
      ensures SetOnce(Overridden(entries, os), os[k].name, os[k].name + "=" + os[k].value)
    {
      SetOnceIs(entries, os, k);
    }
    forall entry | !NamedIn(os, entry)
      ensures multiset(kept + settings)[entry] == multiset(entries)[entry]
    {
      NamedIs(os, entry);
      InheritedAre(entries, os, entry);
      NotGiven(os, entry);
    }
    SettingsAre(os);
    forall i | 0 <= i < |kept|
      ensures kept[i] in entries && !NamedIn(os, kept[i])
    {
      InheritedUnnamed(entries, os, i);
      NamedIs(os, kept[i]);
    }
  }

  /** The loop over the overrides, in closed form: the inherited entries that are not overridden
      keep their order, and each overridden name occurs once, with its last value. */
  method ApplyOverrides(entries: seq<string>, os: seq<Override>) returns (r: Result<seq<string>, EnvironmentError>)
    ensures r.Ok? <==> forall i :: 0 <= i < |os| ==> os[i].name != "" && '=' !in os[i].name
    ensures AllValid(os) ==> r == Ok(Overridden(entries, os)) && Environs(r.value, entries, os)
    ensures !AllValid(os) ==> exists i :: 0 <= i < |os| && AllValid(os[..i]) && !ValidName(os[i].name)
                                          && r == Err(InvalidName(os[i].name))
  {
    hide Inherited, LastSettings, Without, Environs;
    if AllValid(os) {
      OverriddenEnvirons(entries, os);
    }
    var values := entries;
    NothingOverridden(entries);
    for i := 0 to |os|
      invariant AllValid(os[..i])
      invariant values == Overridden(entries, os[..i])
    {
      var next := SetValue(values, os[i]);
      if next.Err? {
        return Err(next.error);
      }
      InheritedMore(entries, os[..i], os[i]);
      LastSettingsMore(os[..i], os[i]);
      WithoutConcat(Inherited(entries, os[..i]), LastSettings(os[..i]), os[i].name);
      assert os[..i + 1] == os[..i] + [os[i]];
      values := next.value;
    }
    assert os[..|os|] == os;
    r := Ok(values);
  }

  lemma {:induction false} NothingOverridden(entries: seq<string>)
    ensures Overridden(entries, []) == entries
  {
    if entries != [] {
      NothingOverridden(entries[..|entries| - 1]);
    }
  }
}
