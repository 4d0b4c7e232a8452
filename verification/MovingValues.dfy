/** Files that are not steady lose or move a value: a profile and an edit for each of them. */
module MovingValues {
  import opened Wrappers
  import opened MultiMaps
  import opened Profiles
  import opened ProfileDom
  import opened Composition
  import opened SavedProfiles
  import opened MergedValues
  import opened ReturningValues

  // Counting values: being caught is the most a loose source can give.

  lemma GivenAtMost(t: Tree, q: Pair, k: string, caught: bool)
    ensures |Given(t, q, k, caught)| <= |Given(t, q, k, true)|
    ensures Loose(t, q.0, k) ==> |Given(t, q, k, false)| == 0 < |Given(t, q, k, true)|
  {
    hide Values;
  }

  lemma {:induction false} SuppliedConcat(a: seq<Tree>, b: seq<Tree>, q: Pair, k: string, caught: bool)
    ensures Supplied(a + b, q, k, caught) == Supplied(a, q, k, caught) + Supplied(b, q, k, caught)
  {
    hide Given;
    if a == [] {
      assert a + b == b;
    } else {
      assert (a + b)[1..] == a[1..] + b && (a + b)[0] == a[0];
      SuppliedConcat(a[1..], b, q, k, caught);
    }
  }

  lemma {:induction false} MergedAtMost(subs: seq<Tree>, sources: seq<Tree>, q: Pair, k: string)
    ensures |MergedIn(MergeAll(subs, sources), q, k)| <= |MergedIn(subs, q, k)| + |Supplied(sources, q, k, true)|
    decreases sources
  {
    hide MergeOne, MergedIn, Given, FirstNamed;
    if sources != [] {
      MergeOneSupplies(subs, sources[0], q, k);
      GivenAtMost(sources[0], q, k, FirstNamed(subs, sources[0].name) == Some(q));
      MergedAtMost(MergeOne(subs, sources[0]), sources[1..], q, k);
    }
  }

  lemma LooseName(t: Tree, name: string, k: string)
    requires Loose(t, name, k)
    ensures t.name == name
  {}

  // A loose source that does not find this sub-profile first leaves it short.
  lemma MissedIsLess(subs: seq<Tree>, sources: seq<Tree>, j: nat, q: Pair, k: string)
    requires j < |sources| && Loose(sources[j], q.0, k)
    requires FirstNamed(MergeAll(subs, sources[..j]), q.0) != Some(q)
    ensures |MergedIn(MergeAll(subs, sources), q, k)| < |MergedIn(subs, q, k)| + |Supplied(sources, q, k, true)|
  {
    var before, t, after := sources[..j], sources[j], sources[j + 1..];
    var stage := MergeAll(subs, before);
    var one := MergeOne(stage, t);
    assert sources == before + ([t] + after);
    MergeAllConcat(subs, before, [t] + after);
    assert ([t] + after)[1..] == after && MergeAll(stage, [t] + after) == MergeAll(one, after);
    SuppliedConcat(before, [t] + after, q, k, true);
    assert Supplied([t] + after, q, k, true) == Given(t, q, k, true) + Supplied(after, q, k, true);
    hide MergeOne, MergedIn, Given, FirstNamed, MergeAll, Supplied;
    MergedAtMost(subs, before, q, k);
    MergeOneSupplies(stage, t, q, k);
    assert t.name == q.0 by { LooseName(t, q.0, k); }
    GivenAtMost(t, q, k, false);
    MergedAtMost(one, after, q, k);
  }

  lemma LoadOneAtMost(store: Store, subs: seq<Tree>, i: nat, q: Pair, k: string)
    requires i < |subs|
    ensures |MergedIn(LoadOne(store, subs, i), q, k)|
         <= |MergedIn(subs, q, k)| + |FromFile(store, PairOf(subs[i]), q, k, true)|
  {
    hide LoadOne, MergedIn, MergeAll, Flatten;
    LoadedFlagIsNoValue(store, subs, i, q, k);
    MergedAtMost(subs, SourcesOf(store, PairOf(subs[i])), q, k);
  }

  lemma FilesFrom(store: Store, subs: seq<Tree>, r: seq<Tree>, i: nat, q: Pair, k: string)
    requires i < |subs| && Grown(subs, r)
    ensures FromFiles(store, PairSeq(r)[i..], q, k, true)
         == FromFile(store, PairOf(subs[i]), q, k, true) + FromFiles(store, PairSeq(r)[i + 1..], q, k, true)
  {
    hide FromFile, PairsOf, New;
    assert Same(subs[i], r[i]);
    assert PairSeq(r)[i..] == [PairOf(subs[i])] + PairSeq(r)[i + 1..];
  }

  lemma {:induction false} ProcessAtMost(store: Store, subs: seq<Tree>, i: nat, q: Pair, k: string)
    requires i <= |subs| && forall j | i <= j < |subs| :: !subs[j].loaded
    ensures var r := Process(store, subs, i);
            && |subs| <= |r|
            && |MergedIn(r, q, k)| <= |MergedIn(subs, q, k)| + |FromFiles(store, PairSeq(r)[i..], q, k, true)|
    decreases |Universe(store) - PairsOf(subs)| + |subs| - i
  {
    hide LoadOne, MergedIn, PairsOf, FromFile, New, Adds;
    var r := Process(store, subs, i);
    ProcessGrows(store, subs, i);
    if i < |subs| {
      var one := LoadOne(store, subs, i);
      LoadingShrinks(store, subs, i);
      LoadOneGrows(store, subs, i);
      LoadOneAtMost(store, subs, i, q, k);
      ProcessAtMost(store, one, i + 1, q, k);
      FilesFrom(store, subs, r, i, q, k);
    }
  }

  lemma NobodyYet(store: Store, subs: seq<Tree>, j: nat, name: string)
    requires subs != [] && FirstNamed(subs, name).None?
    requires j < |SourcesOf(store, PairOf(subs[0]))| && !Announced(store, PairOf(subs[0]), j, name)
    ensures FirstNamed(MergeAll(subs, SourcesOf(store, PairOf(subs[0]))[..j]), name).None?
  {
    hide MergeAll, FirstNamed, PairsOf, SourcesOf;
    var sources := SourcesOf(store, PairOf(subs[0]));
    var stage := MergeAll(subs, sources[..j]);
    MergeAllGrows(subs, sources[..j]);
    FirstNamedMember(subs, name);
    FirstNamedMember(stage, name);
    forall q | q in Typed(sources[..j]) ensures q.0 != name {
      var t :| t in sources[..j] && t.ptype != "" && PairOf(t) == q;
      var i :| 0 <= i < j && sources[..j][i] == t;
      assert sources[i] == t;
    }
  }

  // The first file to be loaded has a loose source that comes too early.
  lemma FirstFileMisses(store: Store, subs: seq<Tree>, j: nat, q: Pair, k: string)
    requires subs != [] && AsRead(subs) && FirstNamed(subs, q.0).None?
    requires LooseAt(store, PairOf(subs[0]), j, q.0, k) && !Announced(store, PairOf(subs[0]), j, q.0)
    ensures |MergedIn(Process(store, subs, 0), q, k)|
          < |MergedIn(subs, q, k)| + |FromFiles(store, PairSeq(Process(store, subs, 0)), q, k, true)|
  {
    var r, one := Process(store, subs, 0), LoadOne(store, subs, 0);
    LoadOneGrows(store, subs, 0);
    ProcessGrows(store, subs, 0);
    hide LoadOne, MergedIn, MergeAll, Flatten, FirstNamed, PairsOf, New, Adds;
    var sources := SourcesOf(store, PairOf(subs[0]));
    NobodyYet(store, subs, j, q.0);
    LoadedFlagIsNoValue(store, subs, 0, q, k);
    MissedIsLess(subs, sources, j, q, k);
    ProcessAtMost(store, one, 1, q, k);
    FilesFrom(store, subs, r, 0, q, k);
    assert PairSeq(r)[0..] == PairSeq(r);
  }

  lemma {:induction false} UncaughtIsLess(ts: seq<Tree>, q: Pair, k: string)
    ensures |Supplied(ts, q, k, false)| <= |Supplied(ts, q, k, true)|
    ensures (exists j | 0 <= j < |ts| :: Loose(ts[j], q.0, k)) ==>
              |Supplied(ts, q, k, false)| < |Supplied(ts, q, k, true)|
  {
    hide Given, Loose;
    if ts != [] {
      UncaughtIsLess(ts[1..], q, k);
      GivenAtMost(ts[0], q, k, false);
      if j :| 0 < j < |ts| && Loose(ts[j], q.0, k) {
        assert ts[1..][j - 1] == ts[j];
      }
    }
  }

  lemma {:induction false} UncaughtFilesAreLess(store: Store, ps: seq<Pair>, q: Pair, k: string)
    ensures |FromFiles(store, ps, q, k, false)| <= |FromFiles(store, ps, q, k, true)|
    ensures (exists i, j | 0 <= i < |ps| :: LooseAt(store, ps[i], j, q.0, k)) ==>
              |FromFiles(store, ps, q, k, false)| < |FromFiles(store, ps, q, k, true)|
  {
    hide Flatten, Supplied, Loose;
    if ps != [] {
      UncaughtFilesAreLess(store, ps[1..], q, k);
      UncaughtIsLess(SourcesOf(store, ps[0]), q, k);
      assert ps[0] !in store ==> FromFile(store, ps[0], q, k, false) == FromFile(store, ps[0], q, k, true);
      if i, j :| 0 < i < |ps| && LooseAt(store, ps[i], j, q.0, k) {
        assert ps[1..][i - 1] == ps[i];
      }
    }
  }

  // The edit: one sub-profile of the name is written, so it alone stands first.

  lemma FirstNamedCons(t: Tree, ts: seq<Tree>, name: string)
    ensures FirstNamed([t] + ts, name) == if t.name == name then Some(PairOf(t)) else FirstNamed(ts, name)
  {
    assert ([t] + ts)[1..] == ts;
  }

  lemma {:induction false} OnlyOneIsWritten(ts: seq<Tree>, i: nat)
    requires i < |ts| && Written(ts[i])
    requires forall j | 0 <= j < |ts| && j != i && ts[j].name == ts[i].name :: !Written(ts[j])
    ensures FirstNamed(RereadAll(ts, true), ts[i].name) == Some(PairOf(ts[i]))
  {
    hide Reread, Written, FirstNamed, RereadAll;
    var rest := RereadAll(ts[1..], true);
    RereadFirst(ts);
    RereadIsAsRead(ts[0]);
    FirstNamedCons(Reread(ts[0], true), rest, ts[i].name);
    if i > 0 {
      assert forall j | 0 <= j < |ts| - 1 :: ts[1..][j] == ts[j + 1];
      OnlyOneIsWritten(ts[1..], i - 1);
      assert [] + rest == rest;
    }
  }

  // The profile to expand: the file with the loose source first, then every other one.
  ghost function Asking(store: Store, name: string, f: Pair): seq<Tree> {
    (if f.0 != name then [Bare(f.0, f.1)] else []) + Listed(set g | g in store && g.0 != name)
  }

  lemma PairsOfFew(ts: seq<Tree>)
    ensures ts == [] ==> PairsOf(ts) == {}
    ensures |ts| == 1 ==> PairsOf(ts) == {PairOf(ts[0])}
  {
    if |ts| == 1 {
      assert ts[0] == ts[|ts| - 1];
    }
  }

  lemma AskingIsAsRead(store: Store, name: string, f: Pair)
    ensures var subs := Asking(store, name, f);
            && AsRead(subs) && FirstNamed(subs, name).None?
            && (forall j | 0 <= j < |subs| :: subs[j].mergedKeys == [])
            && (f.0 != name ==> subs != [] && PairOf(subs[0]) == f)
            && PairsOf(subs) == (if f.0 != name then {f} else {}) + set g | g in store && g.0 != name
  {
    hide PairsOf, FirstNamed, Listed;
    var others := set g | g in store && g.0 != name;
    ListedIsAsRead(others);
    var first := if f.0 != name then [Bare(f.0, f.1)] else [];
    PairsOfConcat(first, Listed(others));
    assert PairsOf(first) == if f.0 != name then {f} else {} by {
      PairsOfFew(first);
    }
    FirstNamedMember(Asking(store, name, f), name);
  }

  lemma ReachedIs(store: Store, name: string)
    ensures ReachedWithout(store, name) == PairsOf(Process(store, Listed(set g | g in store && g.0 != name), 0))
  {}

  lemma AskingReaches(store: Store, name: string, f: Pair)
    requires f in store && f in ReachedWithout(store, name)
    ensures PairsOf(Process(store, Asking(store, name, f), 0)) == ReachedWithout(store, name)
  {
    hide Process, Adds, PairsOf, Listed, FirstNamed, Asking, New, Same, ReachedWithout, Asked;
    var others := set g | g in store && g.0 != name;
    var subs := Asking(store, name, f);
    var r := Process(store, subs, 0);
    AskingIsAsRead(store, name, f);
    ReachedIsClosed(store, name);
    ClosedBounds(store, subs, ReachedWithout(store, name));
    ProcessGrows(store, subs, 0);
    GrownPairs(subs, r);
    forall q | q in PairsOf(r) ensures Adds(store, q) <= PairsOf(r) {
      AllAreAsked(subs, q);
      AskedIsLoaded(store, subs, q);
    }
    ClosedBounds(store, Listed(others), PairsOf(r));
    ReachedIs(store, name);
  }

  // Everything of the name that turned up came without data of its own.
  ghost function WriteOne(r: seq<Tree>, i: nat): seq<Tree>
    requires i < |r|
  {
    r[i := r[i].(localKeys := [Entry("k", "v")])]
  }

  lemma WrittenOneIsFirst(subs: seq<Tree>, r: seq<Tree>, i: nat)
    requires i < |r| && Grown(subs, r) && FirstNamed(subs, r[i].name).None?
    ensures Edited(r, WriteOne(r, i))
    ensures FirstNamed(RereadAll(WriteOne(r, i), true), r[i].name) == Some(PairOf(r[i]))
  {
    hide FirstNamed, PairsOf, RereadAll;
    var e := WriteOne(r, i);
    FirstNamedMember(subs, r[i].name);
    forall j | 0 <= j < |e| && j != i && e[j].name == e[i].name ensures !Written(e[j]) {
      if j < |subs| {
        assert Same(subs[j], r[j]);
        PairIsThere(subs, j);
      } else {
        assert New(r[j]);
      }
    }
    OnlyOneIsWritten(e, i);
  }

  // The first expansion brings this sub-profile fewer values than all the files hold for it.
  ghost predicate FallsShort(store: Store, subs: seq<Tree>, q: Pair, k: string) {
    var r := Process(store, subs, 0);
    && q in PairsOf(r)
    && |MergedIn(r, q, k)| < |FromFiles(store, PairSeq(r), q, k, true)|
  }

  lemma NotItsOwn(store: Store, f: Pair, j: nat, name: string)
    requires !Announced(store, f, j, name)
    ensures f.0 != name
  {}

  lemma TooEarly(store: Store, name: string, f: Pair, j: nat, k: string) returns (q: Pair)
    requires CanMove(store, name, f, j, k) && !Announced(store, f, j, name)
    ensures q.0 == name && FallsShort(store, Asking(store, name, f), q, k)
  {
    hide Process, PairsOf, FirstNamed, Asking, ReachedWithout, LooseAt, Announced, MergedIn, FromFiles;
    assert f in store by { LooseIsInFile(store, f, j, name, k); }
    var subs := Asking(store, name, f);
    AskingIsAsRead(store, name, f);
    AskingReaches(store, name, f);
    q :| q in ReachedWithout(store, name) && q.0 == name;
    assert f.0 != name by { NotItsOwn(store, f, j, name); }
    NothingMergedYet(subs, q, k);
    FirstFileMisses(store, subs, j, q, k);
  }

  lemma NeverFirst(store: Store, name: string, f: Pair, j: nat, k: string) returns (q: Pair)
    requires CanMove(store, name, f, j, k) && Announced(store, f, j, name)
    ensures q.0 == name && FallsShort(store, Asking(store, name, f), q, k)
  {
    hide Process, PairsOf, FirstNamed, Asking, ReachedWithout, LooseAt, Announced, MergedIn, FromFiles, OnlyOne;
    assert f in store by { LooseIsInFile(store, f, j, name, k); }
    var subs := Asking(store, name, f);
    AskingIsAsRead(store, name, f);
    AskingReaches(store, name, f);
    var r := Process(store, subs, 0);
    var reached := ReachedWithout(store, name);
    var a, b :| a in reached && a.0 == name && b in reached && b.0 == name && a != b;
    q := if FirstNamed(r, name) == Some(a) then b else a;
    NothingMergedYet(subs, q, k);
    ProcessGrows(store, subs, 0);
    ProcessSupplies(store, subs, 0, q, k, false);
    assert PairSeq(r)[0..] == PairSeq(r);
    PairSeqMembers(r);
    var i :| 0 <= i < |PairSeq(r)| && PairSeq(r)[i] == f;
    UncaughtFilesAreLess(store, PairSeq(r), q, k);
  }

  lemma MovingIsReached(store: Store, name: string, f: Pair, j: nat, k: string)
    requires CanMove(store, name, f, j, k)
    ensures f in store && f in ReachedWithout(store, name)
  {
    hide ReachedWithout;
  }

  lemma RereadSubs(t: Tree)
    ensures Reread(t, true).subs == RereadAll(t.subs, true) && !Reread(t, true).loaded
  {
    RereadIs(t, true);
  }

  /** For files that are not steady there is a profile and an edit that move a value. */
  lemma UnsteadyMoves(store: Store, name: string, f: Pair, j: nat, k: string) returns (p: Tree, edited: Tree, q: Pair)
    requires CanMove(store, name, f, j, k)
    ensures Edits(store, p, edited) && !ComesBack(store, p, edited, q, k)
  {
    hide Process, PairsOf, FirstNamed, Asking, ReachedWithout, LooseAt, Announced, MergedIn, FromFiles, CanMove,
         RereadAll, Reread, WriteOne, Edited;
    assert f in store && f in ReachedWithout(store, name) by { MovingIsReached(store, name, f, j, k); }
    var subs := Asking(store, name, f);
    if Announced(store, f, j, name) {
      q := NeverFirst(store, name, f, j, k);
    } else {
      q := TooEarly(store, name, f, j, k);
    }
    AskingIsAsRead(store, name, f);
    p := Bare("", "").(subs := subs);
    var r := Process(store, subs, 0);
    PairSeqMembers(r);
    var i := First(PairSeq(r), q);
    ProcessGrows(store, subs, 0);
    WrittenOneIsFirst(subs, r, i);
    edited := Expanded(store, p).(subs := WriteOne(r, i));
    SavedSupplies(store, subs, edited.subs, q, k, true);
    RereadSubs(edited);
  }

  /** All merged values always come back if and only if the files are steady. */
  lemma MergedValuesComeBackIff(store: Store)
    ensures (forall p, edited, q, k | Edits(store, p, edited) :: ComesBack(store, p, edited, q, k)) <==> Steady(store)
  {
    hide Edits, ComesBack, CanMove;
    if Steady(store) {
      forall p, edited, q, k | Edits(store, p, edited) ensures ComesBack(store, p, edited, q, k) {
        SteadyComesBack(store, p, edited, q, k);
      }
    } else {
      var name, f, j, k :| CanMove(store, name, f, j, k);
      var p, edited, q := UnsteadyMoves(store, name, f, j, k);
    }
  }
}
