/** In which order the merged values of an expanded profile stand, and so which of them a key has. */
module MergedOrder {
  import opened Wrappers
  import opened MultiMaps
  import opened Profiles
  import opened Composition
  import opened SavedProfiles
  import opened MergedValues

  ghost predicate Fits(t: Tree, source: Tree) {
    t.name == source.name && (source.ptype == "" || t.ptype == source.ptype)
  }

  // The place in the list that a source of this name and type goes to: the first that fits.
  ghost predicate Receives(ts: seq<Tree>, i: int, source: Tree) {
    && 0 <= i < |ts| && Fits(ts[i], source)
    && forall j | 0 <= j < i :: !Fits(ts[j], source)
  }

  // What the sources leave for place i: the last one's values in front.
  ghost function Stacked(ts: seq<Tree>, sources: seq<Tree>, i: int, k: string): seq<string> {
    if sources == [] then []
    else
      var s := sources[0];
      Stacked(ts, sources[1..], i, k)
      + if Receives(ts, i, s) then Values(s.mergedKeys, k) + Values(s.localKeys, k) else []
  }

  // And what the files of these references leave.
  ghost function StackedFiles(store: Store, ts: seq<Tree>, pairs: seq<Pair>, i: int, k: string): seq<string> {
    if pairs == [] then []
    else StackedFiles(store, ts, pairs[1..], i, k) + Stacked(ts, SourcesOf(store, pairs[0]), i, k)
  }

  lemma {:induction false} FindSubReceives(ts: seq<Tree>, source: Tree, i: nat)
    requires i < |ts|
    ensures FindSub(ts, source.name, source.ptype) == i <==> Receives(ts, i, source)
  {
    if i > 0 {
      FindSubReceives(ts[1..], source, i - 1);
      assert forall j | 0 <= j < |ts| - 1 :: ts[1..][j] == ts[j + 1];
      assert Receives(ts, i, source) <==> !Fits(ts[0], source) && Receives(ts[1..], i - 1, source);
    }
  }

  // Names and types up to the place are all that matters.
  lemma ReceivesAlike(ts: seq<Tree>, r: seq<Tree>, i: int, source: Tree)
    requires Grown(ts, r) && 0 <= i < |ts|
    ensures Receives(r, i, source) <==> Receives(ts, i, source)
  {
    forall j | 0 <= j <= i ensures Fits(r[j], source) <==> Fits(ts[j], source) {
      assert Same(ts[j], r[j]);
    }
  }

  lemma {:induction false} StackedAlike(ts: seq<Tree>, r: seq<Tree>, sources: seq<Tree>, i: int, k: string)
    requires Grown(ts, r) && 0 <= i < |ts|
    ensures Stacked(r, sources, i, k) == Stacked(ts, sources, i, k)
  {
    hide Grown, Receives;
    if sources != [] {
      ReceivesAlike(ts, r, i, sources[0]);
      StackedAlike(ts, r, sources[1..], i, k);
    }
  }

  lemma MergeOneStacks(ts: seq<Tree>, source: Tree, i: nat, k: string)
    requires i < |ts|
    ensures var given := if Receives(ts, i, source) then Values(source.mergedKeys, k) + Values(source.localKeys, k)
                         else [];
            && i < |MergeOne(ts, source)|
            && Values(MergeOne(ts, source)[i].mergedKeys, k) == given + Values(ts[i].mergedKeys, k)
  {
    hide Receives, FindSub, Absorb, Values;
    FindSubReceives(ts, source, i);
    if Receives(ts, i, source) {
      AbsorbOutcome(ts[i], source, k, "");
    } else {
      assert MergeOne(ts, source)[i] == ts[i];
      assert [] + Values(ts[i].mergedKeys, k) == Values(ts[i].mergedKeys, k);
    }
  }

  lemma {:induction false} MergeAllStacks(ts: seq<Tree>, sources: seq<Tree>, i: nat, k: string)
    requires i < |ts|
    ensures i < |MergeAll(ts, sources)|
    ensures Values(MergeAll(ts, sources)[i].mergedKeys, k) == Stacked(ts, sources, i, k) + Values(ts[i].mergedKeys, k)
    decreases sources
  {
    hide Receives, MergeOne, Values, Grown;
    if sources == [] {
      assert [] + Values(ts[i].mergedKeys, k) == Values(ts[i].mergedKeys, k);
    } else {
      var s, one := sources[0], MergeOne(ts, sources[0]);
      var given := if Receives(ts, i, s) then Values(s.mergedKeys, k) + Values(s.localKeys, k) else [];
      MergeOneGrows(ts, s);
      MergeOneStacks(ts, s, i, k);
      MergeAllStacks(one, sources[1..], i, k);
      StackedAlike(ts, one, sources[1..], i, k);
      var rest := Stacked(ts, sources[1..], i, k);
      assert Stacked(ts, sources, i, k) == rest + given;
      hide Stacked;
      Regrouped(rest, given, Values(ts[i].mergedKeys, k));
    }
  }

  lemma LoadOneStacks(store: Store, ts: seq<Tree>, at: nat, i: nat, k: string)
    requires at < |ts| && i < |ts|
    ensures i < |LoadOne(store, ts, at)|
    ensures Values(LoadOne(store, ts, at)[i].mergedKeys, k)
         == Stacked(ts, SourcesOf(store, PairOf(ts[at])), i, k) + Values(ts[i].mergedKeys, k)
  {
    hide MergeAll, Stacked, Values, Flatten;
    var sources := SourcesOf(store, PairOf(ts[at]));
    var merged := MergeAll(ts, sources);
    MergeAllStacks(ts, sources, i, k);
    MergeAllStacks(ts, sources, at, k);
    assert LoadOne(store, ts, at) == merged[at := merged[at].(loaded := true)];
  }

  lemma {:induction false} FilesAlike(store: Store, ts: seq<Tree>, r: seq<Tree>, pairs: seq<Pair>, i: int, k: string)
    requires Grown(ts, r) && 0 <= i < |ts|
    ensures StackedFiles(store, r, pairs, i, k) == StackedFiles(store, ts, pairs, i, k)
  {
    hide Grown, Stacked, SourcesOf;
    if pairs != [] {
      StackedAlike(ts, r, SourcesOf(store, pairs[0]), i, k);
      FilesAlike(store, ts, r, pairs[1..], i, k);
    }
  }

  // The merged values of each sub-profile that was there, after everything has been loaded.
  lemma {:induction false} ProcessStacks(store: Store, ts: seq<Tree>, from: nat, i: nat, k: string)
    requires from <= |ts| && i < |ts| && forall j | from <= j < |ts| :: !ts[j].loaded
    ensures var r := Process(store, ts, from);
            && |ts| <= |r|
            && Values(r[i].mergedKeys, k)
               == StackedFiles(store, ts, PairSeq(r)[from..], i, k) + Values(ts[i].mergedKeys, k)
    decreases |Universe(store) - PairsOf(ts)| + |ts| - from
  {
    hide LoadOne, PairsOf, Universe, New, Values, Stacked, SourcesOf;
    var r := Process(store, ts, from);
    ProcessGrows(store, ts, from);
    if from == |ts| {
      assert PairSeq(r)[from..] == [];
      assert [] + Values(ts[i].mergedKeys, k) == Values(ts[i].mergedKeys, k);
    } else {
      var one := LoadOne(store, ts, from);
      LoadingShrinks(store, ts, from);
      LoadOneGrows(store, ts, from);
      LoadOneStacks(store, ts, from, i, k);
      assert r == Process(store, one, from + 1);
      hide Process;
      ProcessStacks(store, one, from + 1, i, k);
      assert Same(ts[from], r[from]);
      var left := PairSeq(r)[from..];
      assert left[0] == PairOf(ts[from]) && left[1..] == PairSeq(r)[from + 1..];
      FilesAlike(store, ts, one, left[1..], i, k);
      Regrouped(StackedFiles(store, ts, left[1..], i, k), Stacked(ts, SourcesOf(store, left[0]), i, k),
                Values(ts[i].mergedKeys, k));
    }
  }

  /** The key of a sub-profile that was read, once its profile is expanded: its own local value, or
      else the first of the values that the loaded files gave it, the last file's in front. */
  lemma ExpandedKey(store: Store, p: Tree, i: nat, k: string, def: string)
    requires AsRead(p.subs) && !p.loaded && i < |p.subs| && p.subs[i].mergedKeys == []
    ensures var r := Expanded(store, p).subs;
            && i < |r|
            && var given := StackedFiles(store, p.subs, PairSeq(r), i, k);
               var own := Values(p.subs[i].localKeys, k);
               && KeyValues(r[i], k) == own + given
               && Key(r[i], k, def) == if own != [] then own[0] else if given != [] then given[0] else def
  {
    hide Process, StackedFiles, Values, New;
    var r := Process(store, p.subs, 0);
    ProcessGrows(store, p.subs, 0);
    assert Same(p.subs[i], r[i]);
    ProcessStacks(store, p.subs, 0, i, k);
    assert PairSeq(r)[0..] == PairSeq(r);
    assert Values([], k) == [] by { Absent([], k); }
    var given := StackedFiles(store, p.subs, PairSeq(r), i, k);
    assert given + [] == given;
    KeyViewsAgree(r[i], k, def);
  }
}
