/** Where the merged values of an expanded profile come from. */
module MergedValues {
  import opened Wrappers
  import opened MultiMaps
  import opened Profiles
  import opened ProfileDom
  import opened Composition
  import opened SavedProfiles

  function Share(t: Tree, q: Pair, k: string): multiset<string> {
    if PairOf(t) == q then multiset(Values(t.mergedKeys, k)) else multiset{}
  }

  // The merged values of a key, over all sub-profiles of that name and type.
  function MergedIn(ts: seq<Tree>, q: Pair, k: string): multiset<string> {
    if ts == [] then multiset{} else Share(ts[0], q, k) + MergedIn(ts[1..], q, k)
  }

  // A profile with a type goes to the sub-profile of its name and type; one without goes to the first
  // of its name, and `caught` says whether that is this one.
  predicate AddsTo(t: Tree, q: Pair, caught: bool) {
    if t.ptype != "" then PairOf(t) == q else caught && t.name == q.0
  }

  function Given(t: Tree, q: Pair, k: string, caught: bool): multiset<string> {
    if AddsTo(t, q, caught) then multiset(KeyValues(t, k)) else multiset{}
  }

  // What a file holds for the sub-profile.
  function Supplied(ts: seq<Tree>, q: Pair, k: string, caught: bool): multiset<string> {
    if ts == [] then multiset{} else Given(ts[0], q, k, caught) + Supplied(ts[1..], q, k, caught)
  }

  function FromFile(store: Store, p: Pair, q: Pair, k: string, caught: bool): multiset<string> {
    if p in store then Supplied(Flatten(store[p]), q, k, caught) else multiset{}
  }

  function FromFiles(store: Store, ps: seq<Pair>, q: Pair, k: string, caught: bool): multiset<string> {
    if ps == [] then multiset{} else FromFile(store, ps[0], q, k, caught) + FromFiles(store, ps[1..], q, k, caught)
  }

  // The first sub-profile of the name, whatever its type.
  function FirstNamed(ts: seq<Tree>, name: string): Option<Pair> {
    var i := FindSub(ts, name, "");
    if i < |ts| then Some(PairOf(ts[i])) else None
  }

  // It names no type and has something to give.
  predicate Loose(t: Tree, name: string, k: string) {
    t.ptype == "" && t.name == name && KeyValues(t, k) != []
  }

  lemma {:induction false} FindsFirstNamed(ts: seq<Tree>, name: string)
    ensures var i := FindSub(ts, name, "");
            && (i < |ts| ==> ts[i].name == name)
            && forall j | 0 <= j < i :: ts[j].name != name
  {
    if ts != [] && ts[0].name != name {
      FindsFirstNamed(ts[1..], name);
      assert forall j | 0 < j < |ts| :: ts[j] == ts[1..][j - 1];
    }
  }

  lemma FirstNamedIs(ts: seq<Tree>, i: nat)
    requires i < |ts| && forall j | 0 <= j < i :: ts[j].name != ts[i].name
    ensures FirstNamed(ts, ts[i].name) == Some(PairOf(ts[i]))
  {
    FindsFirstNamed(ts, ts[i].name);
  }

  lemma FirstNamedMember(ts: seq<Tree>, name: string)
    ensures FirstNamed(ts, name).Some? ==>
              FirstNamed(ts, name).value in PairsOf(ts) && FirstNamed(ts, name).value.0 == name
    ensures FirstNamed(ts, name).None? ==> forall q | q in PairsOf(ts) :: q.0 != name
  {
    FindsFirstNamed(ts, name);
  }

  lemma FirstNamedGrown(a: seq<Tree>, b: seq<Tree>, name: string)
    requires Grown(a, b) && FirstNamed(a, name).Some?
    ensures FirstNamed(b, name) == FirstNamed(a, name)
  {
    hide PairsOf, New, FindSub;
    FindsFirstNamed(a, name);
    var i := FindSub(a, name, "");
    forall j | 0 <= j <= i ensures PairOf(a[j]) == PairOf(b[j]) {
      assert Same(a[j], b[j]);
    }
    FirstNamedIs(b, i);
  }

  lemma Swap(a: multiset<string>, b: multiset<string>, c: multiset<string>)
    ensures (a + b) + c == (c + b) + a && a + (b + c) == b + (a + c)
  {}

  lemma {:induction false} MergedInUpdate(ts: seq<Tree>, i: nat, t: Tree, q: Pair, k: string)
    requires i < |ts|
    ensures MergedIn(ts[i := t], q, k) + Share(ts[i], q, k) == MergedIn(ts, q, k) + Share(t, q, k)
  {
    hide Share;
    var r := ts[i := t];
    if i == 0 {
      assert r[0] == t && r[1..] == ts[1..];
      Swap(Share(t, q, k), MergedIn(ts[1..], q, k), Share(ts[0], q, k));
    } else {
      assert r[0] == ts[0] && r[1..] == ts[1..][i - 1 := t];
      MergedInUpdate(ts[1..], i - 1, t, q, k);
      assert MergedIn(r, q, k) + Share(ts[i], q, k)
          == Share(ts[0], q, k) + (MergedIn(r[1..], q, k) + Share(ts[i], q, k));
    }
  }

  lemma {:induction false} MergedInAppend(ts: seq<Tree>, t: Tree, q: Pair, k: string)
    ensures MergedIn(ts + [t], q, k) == MergedIn(ts, q, k) + Share(t, q, k)
  {
    hide Share;
    if ts == [] {
      assert (ts + [t])[1..] == [] && (ts + [t])[0] == t;
    } else {
      assert (ts + [t])[1..] == ts[1..] + [t];
      MergedInAppend(ts[1..], t, q, k);
    }
  }

  lemma Cancel(a: multiset<string>, b: multiset<string>, c: multiset<string>, d: multiset<string>)
    requires a + b == c + (b + d)
    ensures a == c + d
  {
    forall v ensures a[v] == (c + d)[v] {
      assert (a + b)[v] == (c + (b + d))[v];
    }
  }

  lemma AbsorbedValues(target: Tree, source: Tree, k: string)
    ensures multiset(Values(Absorb(target, source).mergedKeys, k))
         == multiset(Values(target.mergedKeys, k)) + multiset(KeyValues(source, k))
  {
    hide Values, Unite, AddFields;
    var united := Unite(target.mergedKeys, source.localKeys);
    UnitedValues(target.mergedKeys, source.localKeys, k);
    UnitedValues(united, source.mergedKeys, k);
    AddedFields(target.(mergedKeys := Unite(united, source.mergedKeys)), AllFields(source), "");
  }

  lemma MergeOneSupplies(subs: seq<Tree>, source: Tree, q: Pair, k: string)
    ensures MergedIn(MergeOne(subs, source), q, k)
         == MergedIn(subs, q, k) + Given(source, q, k, FirstNamed(subs, source.name) == Some(q))
  {
    hide Absorb, FindSub, Values, KeyValues, MergedIn;
    var i := FindSub(subs, source.name, source.ptype);
    if source.ptype != "" {
      FindSubFinds(subs, source.name, source.ptype);
    } else {
      FindsFirstNamed(subs, source.name);
    }
    if i < |subs| {
      AbsorbKeeps(subs[i], source);
      AbsorbedValues(subs[i], source, k);
      MergedInUpdate(subs, i, Absorb(subs[i], source), q, k);
      Cancel(MergedIn(MergeOne(subs, source), q, k), Share(subs[i], q, k), MergedIn(subs, q, k),
             if PairOf(subs[i]) == q then multiset(KeyValues(source, k)) else multiset{});
    } else if source.ptype != "" {
      var made := Bare(source.name, source.ptype).(merged := true);
      AbsorbKeeps(made, source);
      AbsorbedValues(made, source, k);
      MergedInAppend(subs, Absorb(made, source), q, k);
      Absent([], k);
    }
  }

  // Each loose source of the name finds this sub-profile first, or none of them does.
  ghost predicate CaughtAlike(subs: seq<Tree>, sources: seq<Tree>, q: Pair, k: string, caught: bool) {
    forall j | 0 <= j < |sources| && Loose(sources[j], q.0, k) ::
      (FirstNamed(MergeAll(subs, sources[..j]), q.0) == Some(q)) == caught
  }

  lemma CaughtTail(subs: seq<Tree>, sources: seq<Tree>, q: Pair, k: string, caught: bool)
    requires sources != [] && CaughtAlike(subs, sources, q, k, caught)
    ensures CaughtAlike(MergeOne(subs, sources[0]), sources[1..], q, k, caught)
  {
    hide MergeOne, FirstNamed;
    var rest := sources[1..];
    forall j | 0 <= j < |rest| && Loose(rest[j], q.0, k)
      ensures (FirstNamed(MergeAll(MergeOne(subs, sources[0]), rest[..j]), q.0) == Some(q)) == caught
    {
      assert rest[j] == sources[j + 1];
      assert sources[..j + 1][1..] == rest[..j] && sources[..j + 1][0] == sources[0];
    }
  }

  lemma {:induction false} MergeAllSupplies(subs: seq<Tree>, sources: seq<Tree>, q: Pair, k: string, caught: bool)
    requires CaughtAlike(subs, sources, q, k, caught)
    ensures MergedIn(MergeAll(subs, sources), q, k) == MergedIn(subs, q, k) + Supplied(sources, q, k, caught)
    decreases sources
  {
    hide MergeOne, MergedIn, FirstNamed;
    if sources != [] {
      var one := MergeOne(subs, sources[0]);
      MergeOneSupplies(subs, sources[0], q, k);
      assert sources[..0] == [] && MergeAll(subs, []) == subs;
      CaughtTail(subs, sources, q, k, caught);
      MergeAllSupplies(one, sources[1..], q, k, caught);
      var found := FirstNamed(subs, sources[0].name) == Some(q);
      assert Given(sources[0], q, k, found) == Given(sources[0], q, k, caught);
    }
  }

  // The sources that loading one sub-profile merges.
  function SourcesOf(store: Store, p: Pair): seq<Tree> {
    if p in store then Flatten(store[p]) else []
  }

  lemma LoadedFlagIsNoValue(store: Store, subs: seq<Tree>, i: nat, q: Pair, k: string)
    requires i < |subs|
    ensures MergedIn(LoadOne(store, subs, i), q, k)
         == MergedIn(MergeAll(subs, SourcesOf(store, PairOf(subs[i]))), q, k)
  {
    hide MergedIn, MergeAll, Flatten, PairsOf;
    var sources := SourcesOf(store, PairOf(subs[i]));
    var merged := MergeAll(subs, sources);
    MergeAllGrows(subs, sources);
    MergedInUpdate(merged, i, merged[i].(loaded := true), q, k);
    Cancel(MergedIn(LoadOne(store, subs, i), q, k), Share(merged[i], q, k), MergedIn(merged, q, k), multiset{});
  }

  lemma LoadOneSupplies(store: Store, subs: seq<Tree>, i: nat, q: Pair, k: string, caught: bool)
    requires i < |subs| && CaughtAlike(subs, SourcesOf(store, PairOf(subs[i])), q, k, caught)
    ensures MergedIn(LoadOne(store, subs, i), q, k)
         == MergedIn(subs, q, k) + FromFile(store, PairOf(subs[i]), q, k, caught)
  {
    hide MergedIn, MergeAll, Flatten, PairsOf, CaughtAlike;
    var sources := SourcesOf(store, PairOf(subs[i]));
    MergeAllGrows(subs, sources);
    MergeAllSupplies(subs, sources, q, k, caught);
    LoadedFlagIsNoValue(store, subs, i, q, k);
  }

  ghost predicate OnlyOne(r: seq<Tree>, q: Pair) {
    forall p | p in PairsOf(r) && p.0 == q.0 :: p == q
  }

  ghost predicate LooseAt(store: Store, f: Pair, j: nat, name: string, k: string) {
    j < |SourcesOf(store, f)| && Loose(SourcesOf(store, f)[j], name, k)
  }

  // The file bears the name itself, or holds a typed profile of that name further up.
  ghost predicate Announced(store: Store, f: Pair, j: nat, name: string) {
    f.0 == name
    || exists i | 0 <= i < j && i < |SourcesOf(store, f)| ::
         SourcesOf(store, f)[i].name == name && SourcesOf(store, f)[i].ptype != ""
  }

  // Of the sub-profiles of that name, one stands first all the time; or this one never does; or it is
  // the only one, and each loose source comes when it is there; or nothing loose is loaded.
  ghost predicate Settled(store: Store, subs: seq<Tree>, r: seq<Tree>, q: Pair, k: string, caught: bool) {
    || (FirstNamed(subs, q.0).Some? && (FirstNamed(subs, q.0) == Some(q)) == caught)
    || (!caught && FirstNamed(r, q.0) != Some(q))
    || (caught && OnlyOne(r, q)
        && forall f, j | f in PairsOf(r) && LooseAt(store, f, j, q.0, k) :: Announced(store, f, j, q.0))
    || (forall f, j | f in PairsOf(r) :: !LooseAt(store, f, j, q.0, k))
  }

  // In the middle of loading a sub-profile.
  lemma Stage(store: Store, subs: seq<Tree>, i: nat, j: nat, r: seq<Tree>)
    requires i < |subs| && j <= |SourcesOf(store, PairOf(subs[i]))| && Grown(LoadOne(store, subs, i), r)
    ensures var stage := MergeAll(subs, SourcesOf(store, PairOf(subs[i]))[..j]);
            && Grown(subs, stage) && Grown(stage, r)
            && PairsOf(stage) == PairsOf(subs) + Typed(SourcesOf(store, PairOf(subs[i]))[..j])
  {
    hide PairsOf, Same, New, MergeAll, Flatten;
    var sources := SourcesOf(store, PairOf(subs[i]));
    var stage, merged := MergeAll(subs, sources[..j]), MergeAll(subs, sources);
    MergeAllGrows(subs, sources[..j]);
    MergeAllGrows(stage, sources[j..]);
    assert sources == sources[..j] + sources[j..];
    MergeAllConcat(subs, sources[..j], sources[j..]);
    MergeAllGrows(subs, sources);
    GrownSelf(merged);
    SetLoaded(merged, merged, i);
    GrownTransitive(stage, merged, LoadOne(store, subs, i));
    GrownTransitive(stage, LoadOne(store, subs, i), r);
  }

  lemma AnnouncedIsThere(store: Store, f: Pair, j: nat, name: string, subs: seq<Tree>, stage: seq<Tree>)
    requires Announced(store, f, j, name) && j <= |SourcesOf(store, f)| && f in PairsOf(subs)
    requires PairsOf(stage) == PairsOf(subs) + Typed(SourcesOf(store, f)[..j])
    ensures FirstNamed(stage, name).Some?
  {
    hide PairsOf, FirstNamed, SourcesOf;
    FirstNamedMember(stage, name);
    var sources := SourcesOf(store, f);
    if f.0 != name {
      var i :| 0 <= i < j && sources[i].name == name && sources[i].ptype != "";
      assert sources[..j][i] == sources[i] && sources[..j][i] in sources[..j];
      assert PairOf(sources[i]) in Typed(sources[..j]);
    }
  }

  lemma SettledIsAlike(store: Store, subs: seq<Tree>, i: nat, r: seq<Tree>, q: Pair, k: string, caught: bool)
    requires i < |subs| && Grown(LoadOne(store, subs, i), r) && Settled(store, subs, r, q, k, caught)
    ensures CaughtAlike(subs, SourcesOf(store, PairOf(subs[i])), q, k, caught)
  {
    hide PairsOf, MergeAll, Flatten, LoadOne, FirstNamed, New;
    var f := PairOf(subs[i]);
    var sources := SourcesOf(store, f);
    forall j | 0 <= j < |sources| && Loose(sources[j], q.0, k)
      ensures (FirstNamed(MergeAll(subs, sources[..j]), q.0) == Some(q)) == caught
    {
      assert LooseAt(store, f, j, q.0, k);
      Stage(store, subs, i, j, r);
      var stage := MergeAll(subs, sources[..j]);
      if FirstNamed(subs, q.0).Some? {
        FirstNamedGrown(subs, stage, q.0);
      }
      if FirstNamed(stage, q.0).Some? {
        FirstNamedGrown(stage, r, q.0);
      }
      FirstNamedMember(stage, q.0);
      GrownPairs(stage, r);
      PairIsThere(subs, i);
      if Announced(store, f, j, q.0) {
        AnnouncedIsThere(store, f, j, q.0, subs, stage);
      }
    }
  }

  lemma StaysSettled(store: Store, subs: seq<Tree>, one: seq<Tree>, r: seq<Tree>, q: Pair, k: string, caught: bool)
    requires Settled(store, subs, r, q, k, caught) && Grown(subs, one)
    ensures Settled(store, one, r, q, k, caught)
  {
    hide PairsOf, Grown, FirstNamed, LooseAt, Announced;
    if FirstNamed(subs, q.0).Some? {
      FirstNamedGrown(subs, one, q.0);
    }
  }

  lemma FromFilesHead(store: Store, a: seq<Pair>, q: Pair, k: string, caught: bool)
    requires a != []
    ensures FromFiles(store, a, q, k, caught)
         == FromFile(store, a[0], q, k, caught) + FromFiles(store, a[1..], q, k, caught)
  {}

  // Every file that is loaded hands over what it holds, once.
  lemma {:induction false} ProcessSupplies(store: Store, subs: seq<Tree>, i: nat, q: Pair, k: string, caught: bool)
    requires i <= |subs| && forall j | i <= j < |subs| :: !subs[j].loaded
    requires Settled(store, subs, Process(store, subs, i), q, k, caught)
    ensures var r := Process(store, subs, i);
            && |subs| <= |r|
            && MergedIn(r, q, k) == MergedIn(subs, q, k) + FromFiles(store, PairSeq(r)[i..], q, k, caught)
    decreases |Universe(store) - PairsOf(subs)| + |subs| - i
  {
    hide LoadOne, MergedIn, PairsOf, FromFile, New, Adds, Settled, CaughtAlike, Universe;
    var r := Process(store, subs, i);
    ProcessGrows(store, subs, i);
    if i == |subs| {
      assert PairSeq(r)[i..] == [];
    } else {
      var one := LoadOne(store, subs, i);
      LoadingShrinks(store, subs, i);
      assert r == Process(store, one, i + 1);
      hide Process;
      LoadOneGrows(store, subs, i);
      ProcessGrows(store, one, i + 1);
      SettledIsAlike(store, subs, i, r, q, k, caught);
      LoadOneSupplies(store, subs, i, q, k, caught);
      StaysSettled(store, subs, one, r, q, k, caught);
      ProcessSupplies(store, one, i + 1, q, k, caught);
      assert Same(subs[i], r[i]);
      var loaded := PairSeq(r)[i..];
      assert loaded[0] == PairOf(subs[i]) && loaded[1..] == PairSeq(r)[i + 1..];
      hide FromFiles;
      FromFilesHead(store, loaded, q, k, caught);
    }
  }

  lemma {:induction false} FromFilesConcat(store: Store, a: seq<Pair>, b: seq<Pair>, q: Pair, k: string, caught: bool)
    ensures FromFiles(store, a + b, q, k, caught)
         == FromFiles(store, a, q, k, caught) + FromFiles(store, b, q, k, caught)
  {
    hide FromFile;
    if a == [] {
      assert a + b == b;
    } else {
      assert (a + b)[1..] == a[1..] + b;
      FromFilesConcat(store, a[1..], b, q, k, caught);
    }
  }

  lemma WithoutOne<T>(b: seq<T>, i: nat)
    requires i < |b|
    ensures multiset(b) == multiset{b[i]} + multiset(b[..i] + b[i + 1..])
  {
    assert b == b[..i] + [b[i]] + b[i + 1..];
  }

  lemma CancelOne<T>(x: T, a: multiset<T>, b: multiset<T>)
    requires multiset{x} + a == multiset{x} + b
    ensures a == b
  {
    forall p ensures a[p] == b[p] {
      assert (multiset{x} + a)[p] == (multiset{x} + b)[p];
    }
  }

  lemma TakeOut(a: seq<Pair>, b: seq<Pair>) returns (i: nat)
    requires a != [] && multiset(a) == multiset(b)
    ensures i < |b| && b[i] == a[0] && multiset(a[1..]) == multiset(b[..i] + b[i + 1..])
  {
    assert a[0] in multiset(a);
    i :| 0 <= i < |b| && b[i] == a[0];
    WithoutOne(a, 0);
    WithoutOne(b, i);
    assert a[..0] + a[1..] == a[1..];
    CancelOne(a[0], multiset(a[1..]), multiset(b[..i] + b[i + 1..]));
  }

  // The order in which files are loaded makes no difference to what comes from them.
  lemma {:induction false} OrderIsIrrelevant(store: Store, a: seq<Pair>, b: seq<Pair>, q: Pair, k: string, caught: bool)
    requires multiset(a) == multiset(b)
    ensures FromFiles(store, a, q, k, caught) == FromFiles(store, b, q, k, caught)
  {
    hide FromFile;
    if a == [] {
      assert |multiset(b)| == 0;
    } else {
      hide FromFiles;
      var i := TakeOut(a, b);
      FromFilesHead(store, a, q, k, caught);
      FromFilesHead(store, b[i..], q, k, caught);
      OrderIsIrrelevant(store, a[1..], b[..i] + b[i + 1..], q, k, caught);
      FromFilesConcat(store, b[..i], b[i + 1..], q, k, caught);
      assert b == b[..i] + b[i..];
      FromFilesConcat(store, b[..i], b[i..], q, k, caught);
      assert b[i..][1..] == b[i + 1..];
      Swap(FromFiles(store, b[..i], q, k, caught), FromFile(store, a[0], q, k, caught),
           FromFiles(store, b[i + 1..], q, k, caught));
    }
  }

  lemma {:induction false} NothingMergedYet(ts: seq<Tree>, q: Pair, k: string)
    requires forall j | 0 <= j < |ts| :: ts[j].mergedKeys == []
    ensures MergedIn(ts, q, k) == multiset{}
  {
    if ts != [] {
      NothingMergedYet(ts[1..], q, k);
    }
  }

  lemma {:induction false} RereadHasNothingMerged(ts: seq<Tree>)
    ensures forall j | 0 <= j < |RereadAll(ts, true)| :: RereadAll(ts, true)[j].mergedKeys == []
  {
    hide Written;
    if ts != [] {
      RereadHasNothingMerged(ts[1..]);
      RereadIs(ts[0], true);
    }
  }
}
