/** Expanding a profile: every referenced profile file is loaded once and merged, until no new
    reference turns up. */
module Composition {
  import opened MultiMaps
  import opened Profiles

  type Pair = (string, string)

  // The profile files, by the name and type they are asked for.
  type Store = map<Pair, Tree>

  function PairOf(t: Tree): Pair {
    (t.name, t.ptype)
  }

  function PairsOf(ts: seq<Tree>): set<Pair> {
    set j | 0 <= j < |ts| :: PairOf(ts[j])
  }

  function Typed(ts: seq<Tree>): set<Pair> {
    set t | t in ts && t.ptype != "" :: PairOf(t)
  }

  // The typed profiles anywhere in the file.
  function Adds(store: Store, p: Pair): set<Pair> {
    if p in store then Typed(Flatten(store[p])) else {}
  }

  function Universe(store: Store): set<Pair> {
    set p, q | p in store && q in Adds(store, p) :: q
  }

  // What composing leaves alone in a sub-profile.
  ghost predicate Same(a: Tree, b: Tree) {
    b == a.(loaded := b.loaded, mergedKeys := b.mergedKeys, mergedFields := b.mergedFields)
  }

  // A sub-profile that composing brought in.
  ghost predicate New(t: Tree) {
    t.merged && t.localKeys == [] && t.localFields == [] && t.subs == [] && t.ptype != ""
  }

  ghost predicate Grown(a: seq<Tree>, b: seq<Tree>) {
    && |a| <= |b|
    && (forall j | 0 <= j < |a| :: Same(a[j], b[j]))
    && (forall j | |a| <= j < |b| :: New(b[j]) && PairOf(b[j]) !in PairsOf(b[..j]))
  }

  // Members other than `but` stay as loaded as they were; new ones are not loaded.
  ghost predicate LoadedAlike(a: seq<Tree>, b: seq<Tree>, but: int) {
    && |a| <= |b|
    && (forall j | 0 <= j < |a| && j != but :: b[j].loaded == a[j].loaded)
    && (forall j | |a| <= j < |b| :: !b[j].loaded)
  }

  lemma GrownPairs(a: seq<Tree>, b: seq<Tree>)
    requires Grown(a, b)
    ensures PairsOf(a) <= PairsOf(b) && PairsOf(b[..|a|]) == PairsOf(a)
  {
    forall j | 0 <= j < |a| ensures PairOf(a[j]) in PairsOf(b) && PairOf(a[j]) in PairsOf(b[..|a|]) {
      assert Same(a[j], b[j]) && PairOf(b[j]) == PairOf(b[..|a|][j]);
    }
    forall j | 0 <= j < |a| ensures PairOf(b[..|a|][j]) in PairsOf(a) {
      assert Same(a[j], b[j]) && PairOf(a[j]) == PairOf(b[..|a|][j]);
    }
  }

  lemma GrownTransitive(a: seq<Tree>, b: seq<Tree>, c: seq<Tree>)
    requires Grown(a, b) && Grown(b, c)
    ensures Grown(a, c)
  {
    hide PairsOf;
    forall j | 0 <= j < |a| ensures Same(a[j], c[j]) {
      assert Same(a[j], b[j]) && Same(b[j], c[j]);
    }
    forall j | |a| <= j < |c| ensures New(c[j]) && PairOf(c[j]) !in PairsOf(c[..j]) {
      if j < |b| {
        assert Same(b[j], c[j]);
        assert Grown(b[..j], c[..j]);
        GrownPairs(b[..j], c[..j]);
        assert c[..j][..j] == c[..j];
      }
    }
  }

  lemma {:induction false} FindSubFinds(subs: seq<Tree>, name: string, ptype: string)
    requires ptype != ""
    ensures var i := FindSub(subs, name, ptype);
            && (i < |subs| ==> PairOf(subs[i]) == (name, ptype))
            && (i == |subs| <==> (name, ptype) !in PairsOf(subs))
  {
    if subs != [] {
      assert subs == [subs[0]] + subs[1..];
      if !(subs[0].name == name && subs[0].ptype == ptype) {
        FindSubFinds(subs[1..], name, ptype);
      } else {
        assert subs[0] in subs;
      }
    }
  }

  lemma AbsorbKeeps(target: Tree, source: Tree)
    ensures Same(target, Absorb(target, source)) && Absorb(target, source).loaded == target.loaded
  {
    hide Unite, AddFields;
    AddedFields(target.(mergedKeys := Unite(Unite(target.mergedKeys, source.localKeys), source.mergedKeys)),
                AllFields(source), "");
  }

  lemma PairIsThere(ts: seq<Tree>, i: nat)
    requires i < |ts|
    ensures PairOf(ts[i]) in PairsOf(ts)
  {}

  lemma SamePairs(a: seq<Tree>, b: seq<Tree>)
    requires |a| == |b| && forall j | 0 <= j < |a| :: PairOf(a[j]) == PairOf(b[j])
    ensures PairsOf(a) == PairsOf(b)
  {}

  lemma PairsOfLast(ts: seq<Tree>, t: Tree)
    ensures PairsOf(ts + [t]) == PairsOf(ts) + {PairOf(t)}
  {
    var r := ts + [t];
    forall j | 0 <= j < |ts| ensures PairOf(ts[j]) in PairsOf(r) {
      assert r[j] == ts[j];
    }
    assert r[|ts|] == t;
  }

  lemma MergeOneGrows(subs: seq<Tree>, source: Tree)
    ensures var r := MergeOne(subs, source);
            && Grown(subs, r) && LoadedAlike(subs, r, -1)
            && PairsOf(r) == PairsOf(subs) + if source.ptype == "" then {} else {PairOf(source)}
  {
    hide Absorb, FindSub, PairsOf;
    var r := MergeOne(subs, source);
    var i := FindSub(subs, source.name, source.ptype);
    if source.ptype != "" {
      FindSubFinds(subs, source.name, source.ptype);
    }
    if i < |subs| {
      AbsorbKeeps(subs[i], source);
      SamePairs(subs, r);
      PairIsThere(subs, i);
    } else if source.ptype != "" {
      var made := Bare(source.name, source.ptype).(merged := true);
      AbsorbKeeps(made, source);
      assert r[..|subs|] == subs;
      PairsOfLast(subs, Absorb(made, source));
    }
  }

  lemma GrownSelf(subs: seq<Tree>)
    ensures Grown(subs, subs)
  {}

  lemma {:induction false} MergeAllGrows(subs: seq<Tree>, sources: seq<Tree>)
    ensures var r := MergeAll(subs, sources);
            && Grown(subs, r) && LoadedAlike(subs, r, -1) && PairsOf(r) == PairsOf(subs) + Typed(sources)
    decreases sources
  {
    hide MergeOne, PairsOf, Grown;
    if sources == [] {
      assert Grown(subs, subs) by { GrownSelf(subs); }
    } else {
      var one := MergeOne(subs, sources[0]);
      MergeOneGrows(subs, sources[0]);
      MergeAllGrows(one, sources[1..]);
      GrownTransitive(subs, one, MergeAll(subs, sources));
      assert sources == [sources[0]] + sources[1..];
    }
  }

  // One sub-profile is loaded.
  function LoadOne(store: Store, subs: seq<Tree>, i: nat): (r: seq<Tree>)
    requires i < |subs|
  {
    var sources := if PairOf(subs[i]) in store then Flatten(store[PairOf(subs[i])]) else [];
    var merged := MergeAll(subs, sources);
    MergeAllGrows(subs, sources);
    merged[i := merged[i].(loaded := true)]
  }

  lemma SetLoaded(a: seq<Tree>, b: seq<Tree>, i: nat)
    requires Grown(a, b) && i < |a|
    ensures var r := b[i := b[i].(loaded := true)]; Grown(a, r) && PairsOf(r) == PairsOf(b)
  {
    var r := b[i := b[i].(loaded := true)];
    forall j | 0 <= j <= |b| ensures PairsOf(r[..j]) == PairsOf(b[..j]) {
      SamePairs(r[..j], b[..j]);
    }
    assert r[..|b|] == r && b[..|b|] == b;
  }

  lemma LoadOneGrows(store: Store, subs: seq<Tree>, i: nat)
    requires i < |subs|
    ensures var r := LoadOne(store, subs, i);
            && Grown(subs, r) && LoadedAlike(subs, r, i) && r[i].loaded
            && PairsOf(r) == PairsOf(subs) + Adds(store, PairOf(subs[i]))
  {
    hide MergeAll, PairsOf, Flatten;
    var sources := if PairOf(subs[i]) in store then Flatten(store[PairOf(subs[i])]) else [];
    var merged := MergeAll(subs, sources);
    MergeAllGrows(subs, sources);
    var r := merged[i := merged[i].(loaded := true)];
    SetLoaded(subs, merged, i);
  }

  lemma GrownPrefix(a: seq<Tree>, b: seq<Tree>, n: nat)
    requires Grown(a, b) && |a| <= n <= |b|
    ensures Grown(a, b[..n])
  {
    hide PairsOf, Same;
    forall j | |a| <= j < n ensures b[..n][..j] == b[..j] {}
  }

  // Each new member uses up one pair.
  lemma {:induction false} GrowingShrinks(all: set<Pair>, a: seq<Tree>, b: seq<Tree>)
    requires Grown(a, b) && PairsOf(b) <= PairsOf(a) + all
    ensures |all - PairsOf(b)| + |b| <= |all - PairsOf(a)| + |a|
    decreases |b|
  {
    hide PairsOf, Same;
    if |b| == |a| {
      GrownPairs(a, b);
      assert b[..|a|] == b;
    } else {
      var n := |b| - 1;
      var c := b[..n];
      assert b == c + [b[n]];
      PairsOfLast(c, b[n]);
      GrownPrefix(a, b, n);
      GrowingShrinks(all, a, c);
      GrownPairs(a, c);
      assert PairOf(b[n]) in all - PairsOf(c);
      assert all - PairsOf(b) == (all - PairsOf(c)) - {PairOf(b[n])};
    }
  }

  lemma AddsInUniverse(store: Store, p: Pair)
    ensures Adds(store, p) <= Universe(store)
  {}

  lemma LoadingShrinks(store: Store, subs: seq<Tree>, i: nat)
    requires i < |subs|
    ensures var r := LoadOne(store, subs, i);
            && i < |r|
            && |Universe(store) - PairsOf(r)| + |r| <= |Universe(store) - PairsOf(subs)| + |subs|
  {
    hide LoadOne, PairsOf, Adds;
    LoadOneGrows(store, subs, i);
    assert Adds(store, PairOf(subs[i])) <= Universe(store) by {
      AddsInUniverse(store, PairOf(subs[i]));
    }
    GrowingShrinks(Universe(store), subs, LoadOne(store, subs, i));
  }

  /** The list after all its members, and all the members this adds, have been loaded in turn. */
  function Process(store: Store, subs: seq<Tree>, i: nat): seq<Tree>
    requires i <= |subs|
    decreases |Universe(store) - PairsOf(subs)| + |subs| - i
  {
    if i == |subs| then subs
    else if subs[i].loaded then Process(store, subs, i + 1)
    else
      LoadingShrinks(store, subs, i);
      Process(store, LoadOne(store, subs, i), i + 1)
  }

  lemma {:induction false} ProcessGrows(store: Store, subs: seq<Tree>, i: nat)
    requires i <= |subs|
    ensures var r := Process(store, subs, i);
            && Grown(subs, r)
            && (forall j | 0 <= j < i :: r[j].loaded == subs[j].loaded)
            && (forall j | i <= j < |r| :: r[j].loaded)
    decreases |Universe(store) - PairsOf(subs)| + |subs| - i
  {
    hide LoadOne, PairsOf, Same, New;
    if i == |subs| {
      GrownSelf(subs);
    } else if subs[i].loaded {
      ProcessGrows(store, subs, i + 1);
    } else {
      LoadingShrinks(store, subs, i);
      LoadOneGrows(store, subs, i);
      var one := LoadOne(store, subs, i);
      ProcessGrows(store, one, i + 1);
      GrownTransitive(subs, one, Process(store, one, i + 1));
    }
  }

  // Whatever was still to be loaded has brought in what its file holds.
  lemma {:induction false} ProcessCloses(store: Store, subs: seq<Tree>, i: nat, j: nat)
    requires i <= |subs| && i <= j < |Process(store, subs, i)|
    requires j < |subs| ==> !subs[j].loaded
    ensures var r := Process(store, subs, i); Adds(store, PairOf(r[j])) <= PairsOf(r)
    decreases |Universe(store) - PairsOf(subs)| + |subs| - i
  {
    hide LoadOne, PairsOf, New, Adds;
    if i < |subs| && subs[i].loaded {
      ProcessCloses(store, subs, i + 1, j);
    } else if i < |subs| {
      LoadingShrinks(store, subs, i);
      LoadOneGrows(store, subs, i);
      var one := LoadOne(store, subs, i);
      ProcessGrows(store, one, i + 1);
      GrownPairs(one, Process(store, one, i + 1));
      if j > i {
        ProcessCloses(store, one, i + 1, j);
      } else {
        assert Same(subs[i], one[i]) && Same(one[i], Process(store, one, i + 1)[i]);
      }
    }
  }

  lemma NewPair(a: seq<Tree>, b: seq<Tree>, j: nat)
    requires Grown(a, b) && |a| <= j < |b|
    ensures PairOf(b[j]) !in PairsOf(a)
  {
    hide PairsOf, Same, New;
    GrownPrefix(a, b, j);
    GrownPairs(a, b[..j]);
  }

  lemma {:induction false} ProcessIsLeast(store: Store, subs: seq<Tree>, i: nat, bound: set<Pair>)
    requires i <= |subs| && PairsOf(subs) <= bound
    requires forall j | i <= j < |subs| && !subs[j].loaded :: Adds(store, PairOf(subs[j])) <= bound
    requires forall q | q in bound && q !in PairsOf(subs) :: Adds(store, q) <= bound
    ensures PairsOf(Process(store, subs, i)) <= bound
    decreases |Universe(store) - PairsOf(subs)| + |subs| - i
  {
    hide LoadOne, New, Adds;
    if i < |subs| && subs[i].loaded {
      ProcessIsLeast(store, subs, i + 1, bound);
    } else if i < |subs| {
      LoadingShrinks(store, subs, i);
      LoadOneGrows(store, subs, i);
      var one := LoadOne(store, subs, i);
      forall j | i < j < |one| && !one[j].loaded ensures Adds(store, PairOf(one[j])) <= bound {
        if j < |subs| {
          assert Same(subs[j], one[j]);
        } else {
          assert PairOf(one[j]) in PairsOf(one);
          NewPair(subs, one, j);
        }
      }
      ProcessIsLeast(store, one, i + 1, bound);
    }
  }

  // Pairs whose file is looked at: those that come in, and those not loaded before.
  ghost predicate Asked(subs: seq<Tree>, q: Pair) {
    q in PairsOf(subs) ==> exists j | 0 <= j < |subs| :: PairOf(subs[j]) == q && !subs[j].loaded
  }

  ghost predicate Closed(store: Store, subs: seq<Tree>, pairs: set<Pair>) {
    PairsOf(subs) <= pairs && forall q | q in pairs && Asked(subs, q) :: Adds(store, q) <= pairs
  }

  function Expanded(store: Store, p: Tree): Tree {
    if p.loaded then p else p.(subs := Process(store, p.subs, 0), loaded := true)
  }

  lemma PairsOfConcat(a: seq<Tree>, b: seq<Tree>)
    ensures PairsOf(a + b) == PairsOf(a) + PairsOf(b)
  {
    forall j | 0 <= j < |a| ensures PairOf(a[j]) in PairsOf(a + b) {
      assert (a + b)[j] == a[j];
    }
    forall j | 0 <= j < |b| ensures PairOf(b[j]) in PairsOf(a + b) {
      assert (a + b)[|a| + j] == b[j];
    }
  }

  lemma PlaceOfNew(a: seq<Tree>, b: seq<Tree>, q: Pair) returns (j: nat)
    requires Grown(a, b) && q in PairsOf(b) && q !in PairsOf(a)
    ensures |a| <= j < |b| && PairOf(b[j]) == q
  {
    GrownPairs(a, b);
    assert b == b[..|a|] + b[|a|..];
    PairsOfConcat(b[..|a|], b[|a|..]);
    var k :| 0 <= k < |b| - |a| && PairOf(b[|a|..][k]) == q;
    j := |a| + k;
  }

  lemma AskedIsLoaded(store: Store, subs: seq<Tree>, q: Pair)
    requires q in PairsOf(Process(store, subs, 0)) && Asked(subs, q)
    ensures Adds(store, q) <= PairsOf(Process(store, subs, 0))
  {
    hide Process, Adds, New;
    var r := Process(store, subs, 0);
    ProcessGrows(store, subs, 0);
    if q in PairsOf(subs) {
      var j :| 0 <= j < |subs| && PairOf(subs[j]) == q && !subs[j].loaded;
      assert Same(subs[j], r[j]);
      ProcessCloses(store, subs, 0, j);
    } else {
      var j := PlaceOfNew(subs, r, q);
      ProcessCloses(store, subs, 0, j);
    }
  }

  lemma ClosedBounds(store: Store, subs: seq<Tree>, pairs: set<Pair>)
    requires Closed(store, subs, pairs)
    ensures PairsOf(Process(store, subs, 0)) <= pairs
  {
    hide Process, Adds;
    forall j | 0 <= j < |subs| && !subs[j].loaded ensures Adds(store, PairOf(subs[j])) <= pairs {
      assert PairOf(subs[j]) in PairsOf(subs) && Asked(subs, PairOf(subs[j]));
    }
    ProcessIsLeast(store, subs, 0, pairs);
  }

  /** Expansion reaches the least set of references that is closed under loading files, loads all of
      it, and touches neither the profile's own data nor that of its sub-profiles. */
  lemma ExpandedIsLeastClosure(store: Store, p: Tree)
    requires !p.loaded
    ensures var r := Expanded(store, p);
            && r == p.(loaded := true, subs := r.subs)
            && Grown(p.subs, r.subs)
            && (forall j | 0 <= j < |r.subs| :: r.subs[j].loaded)
            && Closed(store, p.subs, PairsOf(r.subs))
            && (forall pairs: set<Pair> | Closed(store, p.subs, pairs) :: PairsOf(r.subs) <= pairs)
  {
    hide Process, Adds, New;
    var r := Process(store, p.subs, 0);
    ProcessGrows(store, p.subs, 0);
    GrownPairs(p.subs, r);
    forall q | q in PairsOf(r) && Asked(p.subs, q) ensures Adds(store, q) <= PairsOf(r) {
      AskedIsLoaded(store, p.subs, q);
    }
    forall pairs | Closed(store, p.subs, pairs) ensures PairsOf(r) <= pairs {
      ClosedBounds(store, p.subs, pairs);
    }
  }

  /** A profile is expanded once; whoever asks again gets it as it is. */
  lemma ExpandedOnce(store: Store, p: Tree)
    ensures p.loaded ==> Expanded(store, p) == p
    ensures Expanded(store, p).loaded && Expanded(store, Expanded(store, p)) == Expanded(store, p)
  {
    hide Process;
  }

  // Loaded members do not need another look.
  lemma {:induction false} SkipLoaded(store: Store, subs: seq<Tree>, i: nat, n: nat)
    requires i <= n <= |subs| && forall j | i <= j < n :: subs[j].loaded
    ensures Process(store, subs, i) == Process(store, subs, n)
    decreases n - i
  {
    if i < n {
      SkipLoaded(store, subs, i + 1, n);
    }
  }
}
