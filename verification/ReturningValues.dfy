/** Exactly for which profile files the merged values, which are not saved, all come back. */
module ReturningValues {
  import opened Wrappers
  import opened MultiMaps
  import opened Profiles
  import opened ProfileDom
  import opened Composition
  import opened SavedProfiles
  import opened MergedValues

  // A profile as read, expanded and edited.
  ghost predicate Edits(store: Store, p: Tree, edited: Tree) {
    && AsRead(p.subs) && !p.loaded
    && (forall j | 0 <= j < |p.subs| :: p.subs[j].mergedKeys == [])
    && Edited(Expanded(store, p).subs, edited.subs)
  }

  // Saved, read and expanded again, the sub-profiles of that name and type have the same merged values.
  ghost predicate ComesBack(store: Store, p: Tree, edited: Tree, q: Pair, k: string) {
    MergedIn(Expanded(store, Reread(edited, true)).subs, q, k) == MergedIn(Expanded(store, p).subs, q, k)
  }

  // What the second expansion gathers, in terms of the references of the first.
  lemma SavedSupplies(store: Store, subs: seq<Tree>, edited: seq<Tree>, q: Pair, k: string, caught: bool)
    requires AsRead(subs) && Edited(Process(store, subs, 0), edited)
    requires Settled(store, RereadAll(edited, true), Process(store, RereadAll(edited, true), 0), q, k, caught)
    ensures MergedIn(Process(store, RereadAll(edited, true), 0), q, k)
         == FromFiles(store, PairSeq(Process(store, subs, 0)), q, k, caught)
  {
    hide Process, RereadAll, MergedIn, FromFiles, Reread, PairsOf, Settled, Once;
    var saved := RereadAll(edited, true);
    var r, again := Process(store, subs, 0), Process(store, saved, 0);
    SavedReferences(store, subs, edited);
    SamePairsAgain(store, subs, edited);
    ExpandedAndEdited(store, subs, edited);
    RereadHasNothingMerged(edited);
    NothingMergedYet(saved, q, k);
    ProcessSupplies(store, saved, 0, q, k, caught);
    assert PairSeq(again)[0..] == PairSeq(again);
    OrderIsIrrelevant(store, PairSeq(again), PairSeq(r), q, k, caught);
  }

  lemma SettledComesBack(store: Store, p: Tree, edited: Tree, q: Pair, k: string, caught: bool)
    requires Edits(store, p, edited)
    requires Settled(store, p.subs, Expanded(store, p).subs, q, k, caught)
    requires Settled(store, RereadAll(edited.subs, true), Process(store, RereadAll(edited.subs, true), 0), q, k, caught)
    ensures ComesBack(store, p, edited, q, k)
    ensures MergedIn(Expanded(store, p).subs, q, k) == FromFiles(store, PairSeq(Expanded(store, p).subs), q, k, caught)
  {
    hide Process, RereadAll, MergedIn, FromFiles, Reread, PairsOf, Collect, Named, Settled;
    var saved := RereadAll(edited.subs, true);
    var r, again := Process(store, p.subs, 0), Process(store, saved, 0);
    SavedSupplies(store, p.subs, edited.subs, q, k, caught);
    ExpandedAndEdited(store, p.subs, edited.subs);
    RereadIs(edited, true);
    NothingMergedYet(p.subs, q, k);
    ProcessSupplies(store, p.subs, 0, q, k, caught);
    assert PairSeq(r)[0..] == PairSeq(r);
  }

  // The condition

  ghost function Listed(pairs: set<Pair>): (ts: seq<Tree>)
    ensures PairsOf(ts) == pairs
    ensures forall t | t in ts :: t == Bare(t.name, t.ptype)
  {
    if pairs == {} then []
    else
      var q :| q in pairs;
      PairsOfLast(Listed(pairs - {q}), Bare(q.0, q.1));
      Listed(pairs - {q}) + [Bare(q.0, q.1)]
  }

  // Everything that turns up when all files but those of that name are asked for.
  ghost function ReachedWithout(store: Store, name: string): set<Pair> {
    PairsOf(Process(store, Listed(set f | f in store && f.0 != name), 0))
  }

  // The file can be loaded for a profile that does not itself list the name, and there holds a value
  // for the first sub-profile of the name; but there is more than one that can be first, or there
  // need not be one yet.
  ghost predicate CanMove(store: Store, name: string, f: Pair, j: nat, k: string) {
    var reached := ReachedWithout(store, name);
    && f in reached && LooseAt(store, f, j, name, k)
    && exists q | q in reached && q.0 == name ::
         !Announced(store, f, j, name) || exists other | other in reached && other.0 == name :: other != q
  }

  ghost predicate Steady(store: Store) {
    forall name, f, j, k :: !CanMove(store, name, f, j, k)
  }

  // Steady files return everything

  lemma ListedIsAsRead(pairs: set<Pair>)
    ensures AsRead(Listed(pairs)) && forall j | 0 <= j < |Listed(pairs)| :: Listed(pairs)[j].mergedKeys == []
  {
    var ts := Listed(pairs);
    forall j | 0 <= j < |ts| ensures !ts[j].loaded && !ts[j].merged && ts[j].mergedKeys == [] {
      assert ts[j] in ts;
    }
  }

  lemma AllAreAsked(subs: seq<Tree>, q: Pair)
    requires AsRead(subs)
    ensures Asked(subs, q)
  {}

  lemma ReachedIsClosed(store: Store, name: string)
    ensures var reached := ReachedWithout(store, name);
            && (forall f | f in store && f.0 != name :: f in reached)
            && (forall q | q in reached :: Adds(store, q) <= reached)
  {
    hide Process, Adds, PairsOf, Listed, New, Same;
    var pairs := set f | f in store && f.0 != name;
    var p := Bare("", "").(subs := Listed(pairs));
    ListedIsAsRead(pairs);
    ExpandedIsLeastClosure(store, p);
    ProcessGrows(store, p.subs, 0);
    GrownPairs(p.subs, Process(store, p.subs, 0));
    forall q | q in ReachedWithout(store, name) ensures Adds(store, q) <= ReachedWithout(store, name) {
      AllAreAsked(p.subs, q);
    }
  }

  lemma NoFileAddsNothing(store: Store, q: Pair)
    requires q !in store
    ensures Adds(store, q) == {}
  {}

  // What a profile without the name reaches is among it.
  lemma ReachesNoMore(store: Store, subs: seq<Tree>, name: string)
    requires FirstNamed(subs, name).None?
    ensures forall q | q in PairsOf(Process(store, subs, 0)) && (q.0 == name || q in store) ::
              q in ReachedWithout(store, name)
  {
    hide Process, Adds, ReachedWithout;
    FirstNamedMember(subs, name);
    ReachedIsClosed(store, name);
    var bound := PairsOf(subs) + ReachedWithout(store, name);
    forall q | q in bound && Asked(subs, q) ensures Adds(store, q) <= bound {
      if q !in store {
        NoFileAddsNothing(store, q);
      }
    }
    ClosedBounds(store, subs, bound);
  }

  lemma FirstNamedOfPairs(a: seq<Tree>, b: seq<Tree>, name: string)
    requires PairSeq(a) <= PairSeq(b) && FirstNamed(a, name).Some?
    ensures FirstNamed(b, name) == FirstNamed(a, name)
  {
    hide FindSub;
    FindsFirstNamed(a, name);
    var i := FindSub(a, name, "");
    forall j | 0 <= j <= i ensures PairOf(a[j]) == PairOf(b[j]) {
      assert PairSeq(a)[j] == PairSeq(b)[j];
    }
    FirstNamedIs(b, i);
  }

  lemma LooseIsInFile(store: Store, f: Pair, j: nat, name: string, k: string)
    requires LooseAt(store, f, j, name, k)
    ensures f in store
  {}

  // A list of its own: every sub-profile that matters is settled in the same way.
  lemma SteadyIsSettled(store: Store, subs: seq<Tree>, r: seq<Tree>, final: set<Pair>, q: Pair, k: string)
    requires Steady(store) && PairsOf(r) == final && q in final
    requires forall p | p in final && (p.0 == q.0 || p in store) :: p in ReachedWithout(store, q.0)
    ensures Settled(store, subs, r, q, k, true)
  {
    hide ReachedWithout, Announced, FirstNamed, PairsOf, LooseAt;
    if f0, j0 :| f0 in final && LooseAt(store, f0, j0, q.0, k) {
      LooseIsInFile(store, f0, j0, q.0, k);
      assert !CanMove(store, q.0, f0, j0, k);
      forall f, j | f in PairsOf(r) && LooseAt(store, f, j, q.0, k) ensures Announced(store, f, j, q.0) {
        LooseIsInFile(store, f, j, q.0, k);
        assert !CanMove(store, q.0, f, j, k);
      }
    }
  }

  lemma SteadyComesBack(store: Store, p: Tree, edited: Tree, q: Pair, k: string)
    requires Steady(store) && Edits(store, p, edited)
    ensures ComesBack(store, p, edited, q, k)
  {
    hide Process, RereadAll, Steady, ComesBack, FirstNamed, ReachedWithout, OnlyOne, LooseAt, Announced;
    var saved := RereadAll(edited.subs, true);
    var r, again := Process(store, p.subs, 0), Process(store, saved, 0);
    SavedReferences(store, p.subs, edited.subs);
    SamePairsAgain(store, p.subs, edited.subs);
    FirstNamedMember(r, q.0);
    FirstNamedMember(again, q.0);
    if FirstNamed(p.subs, q.0).Some? {
      FirstNamedOfPairs(p.subs, saved, q.0);
      SettledComesBack(store, p, edited, q, k, FirstNamed(p.subs, q.0) == Some(q));
    } else if q !in PairsOf(r) {
      SettledComesBack(store, p, edited, q, k, false);
    } else {
      ReachesNoMore(store, p.subs, q.0);
      SteadyIsSettled(store, p.subs, r, PairsOf(r), q, k);
      SteadyIsSettled(store, saved, again, PairsOf(r), q, k);
      SettledComesBack(store, p, edited, q, k, true);
    }
  }
}
