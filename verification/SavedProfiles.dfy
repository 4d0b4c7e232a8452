/** Saving only a profile's own data, and expanding what is read back, loses nothing. */
module SavedProfiles {
  import opened MultiMaps
  import opened Profiles
  import opened ProfileDom
  import opened Composition

  function PairSeq(ts: seq<Tree>): seq<Pair> {
    seq(|ts|, j requires 0 <= j < |ts| => PairOf(ts[j]))
  }

  // b goes on from a with pairs that were not there before.
  ghost predicate Once(a: seq<Pair>, b: seq<Pair>) {
    a <= b && forall j | |a| <= j < |b| :: b[j] !in b[..j]
  }

  // As read from a file.
  ghost predicate AsRead(subs: seq<Tree>) {
    forall j | 0 <= j < |subs| :: !subs[j].loaded && !subs[j].merged
  }

  // Edits touch the keys and fields of the sub-profiles only.
  ghost predicate Edited(a: seq<Tree>, b: seq<Tree>) {
    && |a| == |b|
    && forall j | 0 <= j < |a| ::
         PairOf(a[j]) == PairOf(b[j]) && a[j].merged == b[j].merged && a[j].subs == b[j].subs
  }

  lemma PairSeqMembers(ts: seq<Tree>)
    ensures forall q :: q in PairSeq(ts) <==> q in PairsOf(ts)
  {
    forall q | q in PairsOf(ts) ensures q in PairSeq(ts) {
      var j :| 0 <= j < |ts| && PairOf(ts[j]) == q;
      assert PairSeq(ts)[j] == q;
    }
  }

  lemma GrownIsOnce(a: seq<Tree>, b: seq<Tree>)
    requires Grown(a, b)
    ensures Once(PairSeq(a), PairSeq(b))
  {
    hide PairsOf, New;
    assert PairSeq(a) == PairSeq(b)[..|a|] by {
      forall j | 0 <= j < |a| ensures PairSeq(a)[j] == PairSeq(b)[j] {
        assert Same(a[j], b[j]);
      }
    }
    forall j | |a| <= j < |b| ensures PairSeq(b)[j] !in PairSeq(b)[..j] {
      PairSeqMembers(b[..j]);
      assert PairSeq(b[..j]) == PairSeq(b)[..j];
    }
  }

  lemma OnceTransitive(a: seq<Pair>, b: seq<Pair>, c: seq<Pair>)
    requires Once(a, b) && Once(b, c)
    ensures Once(a, c)
  {
    forall j | |a| <= j < |c| ensures c[j] !in c[..j] {
      if j < |b| {
        assert c[..j] == b[..j];
      }
    }
  }

  lemma {:induction false} OnceCounts(a: seq<Pair>, b: seq<Pair>, q: Pair)
    requires Once(a, b)
    ensures multiset(b)[q] == if q in a then multiset(a)[q] else if q in b then 1 else 0
    decreases |b|
  {
    if a != b {
      var n := |b| - 1;
      assert b == b[..n] + [b[n]];
      assert forall j | |a| <= j < n :: b[..n][..j] == b[..j];
      OnceCounts(a, b[..n], q);
    }
  }

  lemma OnceDetermines(a: seq<Pair>, b: seq<Pair>, c: seq<Pair>)
    requires Once(a, b) && Once(a, c) && forall q :: q in b <==> q in c
    ensures multiset(b) == multiset(c)
  {
    forall q ensures multiset(b)[q] == multiset(c)[q] {
      OnceCounts(a, b, q);
      OnceCounts(a, c, q);
    }
  }

  lemma {:induction false} RereadAllConcat(a: seq<Tree>, b: seq<Tree>)
    ensures RereadAll(a + b, true) == RereadAll(a, true) + RereadAll(b, true)
  {
    hide Reread, Written;
    if a == [] {
      assert a + b == b;
    } else {
      var head := if Written(a[0]) then [Reread(a[0], true)] else [];
      assert (a + b)[1..] == a[1..] + b && (a + b)[0] == a[0];
      RereadAllConcat(a[1..], b);
      assert RereadAll(a, true) == head + RereadAll(a[1..], true);
      assert RereadAll(a + b, true) == head + RereadAll(a[1..] + b, true);
    }
  }

  lemma RereadLast(ts: seq<Tree>)
    requires ts != []
    ensures var n := |ts| - 1;
            RereadAll(ts, true) == RereadAll(ts[..n], true) + if Written(ts[n]) then [Reread(ts[n], true)] else []
  {
    hide Reread, Written;
    var n := |ts| - 1;
    assert ts == ts[..n] + [ts[n]];
    RereadAllConcat(ts[..n], [ts[n]]);
  }

  lemma RereadIsAsRead(p: Tree)
    ensures PairOf(Reread(p, true)) == PairOf(p) && !Reread(p, true).loaded && !Reread(p, true).merged
  {}

  lemma {:induction false} AllSaved(ts: seq<Tree>)
    requires forall j | 0 <= j < |ts| :: Written(ts[j])
    ensures PairSeq(RereadAll(ts, true)) == PairSeq(ts) && AsRead(RereadAll(ts, true))
  {
    hide Reread, Written;
    if ts != [] {
      AllSaved(ts[1..]);
      RereadIsAsRead(ts[0]);
      var rest := RereadAll(ts[1..], true);
      assert RereadAll(ts, true)[1..] == rest;
      assert PairSeq(ts) == [PairOf(ts[0])] + PairSeq(ts[1..]);
      assert PairSeq([Reread(ts[0], true)] + rest) == [PairOf(ts[0])] + PairSeq(rest);
    }
  }

  lemma OnceSelf(a: seq<Pair>)
    ensures Once(a, a)
  {}

  lemma OnceLess(a: seq<Pair>, b: seq<Pair>, m: nat)
    requires Once(a, b) && |a| <= m < |b|
    ensures Once(a, b[..m]) && b[m] !in b[..m]
  {
    assert forall j | |a| <= j < m :: b[..m][..j] == b[..j];
  }

  lemma OnceMore(a: seq<Pair>, b: seq<Pair>, q: Pair)
    requires Once(a, b) && q !in b
    ensures Once(a, b + [q])
  {
    forall j | |a| <= j <= |b| ensures (b + [q])[j] !in (b + [q])[..j] {
      assert (b + [q])[..j] == b[..j];
    }
  }

  // The first n are written; of the others, those that are keep their order.
  lemma {:induction false} SavedPairs(ts: seq<Tree>, n: nat)
    requires n <= |ts| && Once(PairSeq(ts[..n]), PairSeq(ts))
    requires forall j | 0 <= j < n :: Written(ts[j])
    ensures var r := RereadAll(ts, true);
            && Once(PairSeq(ts[..n]), PairSeq(r))
            && (forall q | q in PairSeq(r) :: q in PairSeq(ts))
            && AsRead(r)
    decreases |ts|
  {
    hide Reread, Written, RereadAll, Once;
    if |ts| == n {
      assert ts[..n] == ts;
      AllSaved(ts);
      OnceSelf(PairSeq(ts));
    } else {
      var m := |ts| - 1;
      var before, after := RereadAll(ts[..m], true), RereadAll(ts, true);
      RereadLast(ts);
      RereadIsAsRead(ts[m]);
      assert PairSeq(ts)[..m] == PairSeq(ts[..m]);
      assert ts[..m][..n] == ts[..n];
      OnceLess(PairSeq(ts[..n]), PairSeq(ts), m);
      SavedPairs(ts[..m], n);
      assert PairSeq(ts) == PairSeq(ts[..m]) + [PairOf(ts[m])];
      if Written(ts[m]) {
        assert PairSeq(after) == PairSeq(before) + [PairOf(ts[m])];
        OnceMore(PairSeq(ts[..n]), PairSeq(before), PairOf(ts[m]));
      } else {
        assert after == before;
      }
    }
  }

  // The one a look-up by name and type finds.
  function First(ps: seq<Pair>, q: Pair): (i: nat)
    ensures i <= |ps| && (i < |ps| ==> ps[i] == q) && (q in ps <==> i < |ps|)
  {
    if ps == [] || ps[0] == q then 0 else 1 + First(ps[1..], q)
  }

  lemma {:induction false} FirstInPrefix(a: seq<Pair>, b: seq<Pair>, q: Pair)
    requires a <= b
    ensures if q in a then First(b, q) == First(a, q) else First(b, q) >= |a|
  {
    if a != [] && a[0] != q {
      FirstInPrefix(a[1..], b[1..], q);
    }
  }

  lemma RereadFirst(ts: seq<Tree>)
    requires ts != []
    ensures var rest := RereadAll(ts[1..], true);
            && RereadAll(ts, true) == (if Written(ts[0]) then [Reread(ts[0], true)] else []) + rest
            && PairSeq(RereadAll(ts, true)) == (if Written(ts[0]) then [PairOf(ts[0])] else []) + PairSeq(rest)
  {
    hide Reread, Written;
    RereadIsAsRead(ts[0]);
  }

  lemma {:induction false} SavedIsThere(ts: seq<Tree>, q: Pair)
    requires q in PairSeq(RereadAll(ts, true))
    ensures q in PairSeq(ts)
  {
    hide Reread, Written;
    if ts != [] {
      assert PairSeq(ts) == [PairOf(ts[0])] + PairSeq(ts[1..]);
      RereadFirst(ts);
      if q != PairOf(ts[0]) {
        SavedIsThere(ts[1..], q);
      }
    }
  }

  // An unwritten one has its name and type for itself.
  ghost predicate Apart(ts: seq<Tree>) {
    forall i, j | 0 <= i < j < |ts| && !Written(ts[i]) :: PairOf(ts[j]) != PairOf(ts[i])
  }

  lemma NotSavedLater(ts: seq<Tree>)
    requires ts != [] && Apart(ts) && !Written(ts[0])
    ensures PairOf(ts[0]) !in PairSeq(RereadAll(ts[1..], true))
  {
    hide Reread, Written, RereadAll;
    assert forall j | 0 < j < |ts| :: PairOf(ts[j]) != PairOf(ts[0]);
    if PairOf(ts[0]) in PairSeq(RereadAll(ts[1..], true)) {
      SavedIsThere(ts[1..], PairOf(ts[0]));
    }
  }

  lemma FirstCons(p: Pair, ps: seq<Pair>, q: Pair)
    ensures First([p] + ps, q) == if p == q then 0 else 1 + First(ps, q)
  {
    assert ([p] + ps)[1..] == ps;
  }

  lemma ApartTail(ts: seq<Tree>)
    requires ts != [] && Apart(ts)
    ensures Apart(ts[1..])
  {
    hide Written;
  }

  // So what is left unwritten hides no later one.
  lemma {:induction false} FirstSaved(ts: seq<Tree>, q: Pair)
    requires Apart(ts)
    ensures var i, saved := First(PairSeq(ts), q), RereadAll(ts, true);
            var k := First(PairSeq(saved), q);
            if i < |ts| && Written(ts[i]) then k < |saved| && saved[k] == Reread(ts[i], true) else k == |saved|
  {
    hide Reread, Written, First, Apart;
    if ts != [] {
      var rest, saved := RereadAll(ts[1..], true), RereadAll(ts, true);
      var i := First(PairSeq(ts[1..]), q);
      ApartTail(ts);
      FirstSaved(ts[1..], q);
      RereadFirst(ts);
      hide RereadAll, PairOf;
      assert PairSeq(ts) == [PairOf(ts[0])] + PairSeq(ts[1..]);
      FirstCons(PairOf(ts[0]), PairSeq(ts[1..]), q);
      assert i < |ts[1..]| ==> ts[1 + i] == ts[1..][i];
      if Written(ts[0]) {
        FirstCons(PairOf(ts[0]), PairSeq(rest), q);
        assert saved == [Reread(ts[0], true)] + rest;
      } else {
        assert saved == rest;
        if q == PairOf(ts[0]) {
          NotSavedLater(ts);
        }
      }
    }
  }

  // Of an expanded and edited profile, all that was read is written again.
  lemma ExpandedAndEdited(store: Store, subs: seq<Tree>, edited: seq<Tree>)
    requires AsRead(subs) && Edited(Process(store, subs, 0), edited)
    ensures |subs| <= |edited| && PairSeq(edited[..|subs|]) == PairSeq(subs)
    ensures Once(PairSeq(subs), PairSeq(edited))
    ensures forall j | 0 <= j < |subs| :: Written(edited[j])
    ensures forall j | |subs| <= j < |edited| :: edited[j].merged
    ensures PairSeq(edited) == PairSeq(Process(store, subs, 0))
  {
    hide Process, PairsOf;
    var r := Process(store, subs, 0);
    ProcessGrows(store, subs, 0);
    GrownIsOnce(subs, r);
    assert PairSeq(edited[..|subs|]) == PairSeq(edited)[..|subs|];
    forall j | 0 <= j < |subs| ensures Written(edited[j]) {
      assert Same(subs[j], r[j]);
    }
    forall j | |subs| <= j < |edited| ensures edited[j].merged {
      assert New(r[j]);
    }
    assert PairSeq(edited) == PairSeq(r);
  }

  lemma SavedReferences(store: Store, subs: seq<Tree>, edited: seq<Tree>)
    requires AsRead(subs) && Edited(Process(store, subs, 0), edited)
    ensures var saved := RereadAll(edited, true);
            && AsRead(saved) && Once(PairSeq(subs), PairSeq(saved))
            && PairsOf(subs) <= PairsOf(saved) <= PairsOf(edited)
            && PairsOf(edited) == PairsOf(Process(store, subs, 0))
  {
    hide Process, Reread, RereadAll, Written;
    ExpandedAndEdited(store, subs, edited);
    SavedPairs(edited, |subs|);
    PairSeqMembers(subs);
    PairSeqMembers(edited);
    PairSeqMembers(RereadAll(edited, true));
    PairSeqMembers(Process(store, subs, 0));
    forall q | q in PairsOf(subs) ensures q in PairsOf(RereadAll(edited, true)) {
      assert q in PairSeq(subs);
    }
  }

  // With nothing loaded yet, closed is closed whatever the start.
  lemma AsReadAsksAll(store: Store, subs: seq<Tree>, pairs: set<Pair>, others: seq<Tree>)
    requires AsRead(subs) && Closed(store, subs, pairs)
    ensures PairsOf(others) <= pairs ==> Closed(store, others, pairs)
  {
    hide Adds;
    forall q | q in pairs ensures Asked(subs, q) {
    }
  }

  // The same files are reached again.
  lemma SamePairsAgain(store: Store, subs: seq<Tree>, edited: seq<Tree>)
    requires AsRead(subs) && Edited(Process(store, subs, 0), edited)
    ensures var again := Process(store, RereadAll(edited, true), 0);
            && PairsOf(again) == PairsOf(edited)
            && Grown(RereadAll(edited, true), again)
            && multiset(PairSeq(again)) == multiset(PairSeq(edited))
  {
    hide Process, Reread, RereadAll, Written, PairsOf, Adds, Same, New, Once;
    var r, saved := Process(store, subs, 0), RereadAll(edited, true);
    var again := Process(store, saved, 0);
    SavedReferences(store, subs, edited);
    ExpandedAndEdited(store, subs, edited);
    var p, p2 := Bare("", "").(subs := subs), Bare("", "").(subs := saved);
    ExpandedIsLeastClosure(store, p);
    ExpandedIsLeastClosure(store, p2);
    AsReadAsksAll(store, subs, PairsOf(r), saved);
    AsReadAsksAll(store, saved, PairsOf(again), subs);
    GrownPairs(saved, again);
    assert Closed(store, saved, PairsOf(r));
    assert Closed(store, subs, PairsOf(again));
    GrownIsOnce(saved, again);
    OnceTransitive(PairSeq(subs), PairSeq(saved), PairSeq(again));
    PairSeqMembers(edited);
    PairSeqMembers(again);
    OnceDetermines(PairSeq(subs), PairSeq(edited), PairSeq(again));
  }

  ghost function Lookup(subs: seq<Tree>, q: Pair): Tree
    requires q in PairsOf(subs)
  {
    PairSeqMembers(subs);
    subs[First(PairSeq(subs), q)]
  }

  ghost predicate OwnTurned(was: Tree, now: Tree, k: string) {
    && now.localFields == was.localFields
    && Values(now.localKeys, k) == Reversed(Values(was.localKeys, k))
    && multiset(Values(now.localKeys, k)) == multiset(Values(was.localKeys, k))
  }

  // The same sub-profile with the same data of its own, down to its own sub-profiles.
  ghost predicate OwnAgain(was: Tree, now: Tree, k: string) {
    PairOf(now) == PairOf(was) && OwnTurned(was, now, k) && now.subs == RereadAll(was.subs, true)
  }

  lemma OwnValuesTurn(t: Tree, k: string)
    requires k != ""
    ensures OwnAgain(t, Reread(t, true), k)
  {
    hide Values, Reread;
    RereadReversesValues(t, true, k);
    RereadIs(t, true);
    Absent([], k);
    assert Values(t.localKeys, k) + [] == Values(t.localKeys, k);
  }

  // What is not written came from composing and was not edited.
  lemma UnwrittenIsEmpty(store: Store, subs: seq<Tree>, edited: seq<Tree>, i: nat)
    requires AsRead(subs) && Edited(Process(store, subs, 0), edited) && i < |edited| && !Written(edited[i])
    ensures edited[i].localKeys == [] && edited[i].localFields == [] && edited[i].subs == []
    ensures RereadAll(edited[i].subs, true) == []
  {
    hide Process;
    ExpandedAndEdited(store, subs, edited);
    ProcessGrows(store, subs, 0);
    assert New(Process(store, subs, 0)[i]);
  }

  lemma OwnDataAgain(store: Store, subs: seq<Tree>, edited: seq<Tree>, q: Pair, k: string)
    requires AsRead(subs) && Edited(Process(store, subs, 0), edited) && k != "" && q in PairsOf(edited)
    requires q in PairsOf(Process(store, RereadAll(edited, true), 0))
    ensures var was, now := Lookup(edited, q), Lookup(Process(store, RereadAll(edited, true), 0), q);
            OwnAgain(was, now, k)
  {
    hide Process, Reread, RereadAll, PairsOf, Values, Written;
    var saved := RereadAll(edited, true);
    var again := Process(store, saved, 0);
    PairSeqMembers(edited);
    PairSeqMembers(again);
    SamePairsAgain(store, subs, edited);
    ExpandedAndEdited(store, subs, edited);
    forall i, j | 0 <= i < j < |edited| && !Written(edited[i]) ensures PairOf(edited[j]) != PairOf(edited[i]) {
      assert PairSeq(edited)[i] in PairSeq(edited)[..j];
    }
    assert Apart(edited);
    FirstSaved(edited, q);
    GrownIsOnce(saved, again);
    FirstInPrefix(PairSeq(saved), PairSeq(again), q);
    var i := First(PairSeq(edited), q);
    var n := First(PairSeq(again), q);
    if Written(edited[i]) {
      assert Same(saved[n], again[n]);
      OwnValuesTurn(edited[i], k);
    } else {
      assert New(again[n]);
      UnwrittenIsEmpty(store, subs, edited, i);
      Absent([], k);
    }
  }

  lemma {:induction false} WrittenInFront(ts: seq<Tree>, n: nat)
    requires n <= |ts| && forall j | 0 <= j < n :: Written(ts[j])
    ensures n <= |RereadAll(ts, true)| && forall j | 0 <= j < n :: RereadAll(ts, true)[j] == Reread(ts[j], true)
  {
    hide Reread, Written;
    if n > 0 {
      assert forall j | 0 <= j < n - 1 :: ts[1..][j] == ts[j + 1];
      WrittenInFront(ts[1..], n - 1);
      RereadFirst(ts);
    }
  }

  // What was read in the first place keeps its place.
  lemma OwnDataInPlace(store: Store, subs: seq<Tree>, edited: seq<Tree>, k: string)
    requires AsRead(subs) && Edited(Process(store, subs, 0), edited) && k != ""
    ensures var again := Process(store, RereadAll(edited, true), 0);
            && |subs| <= |edited| && |subs| <= |again|
            && forall j | 0 <= j < |subs| :: OwnAgain(edited[j], again[j], k)
  {
    hide Process, Reread, RereadAll, Values, Written, Edited;
    var saved := RereadAll(edited, true);
    var again := Process(store, saved, 0);
    ExpandedAndEdited(store, subs, edited);
    WrittenInFront(edited, |subs|);
    SavedReferences(store, subs, edited);
    ProcessGrows(store, saved, 0);
    forall j | 0 <= j < |subs| ensures OwnAgain(edited[j], again[j], k) {
      OwnValuesTurn(edited[j], k);
      assert Same(saved[j], again[j]);
    }
  }

  /** Save only local data, read it back, expand against the same files: every sub-profile is there
      again with its own fields, its own sub-profiles as saved, and, name by name, its own values,
      turned around. Those that were read in the first place are found at their place; each other one
      is the only one of its name and type. */
  lemma SavingLosesNothing(store: Store, p: Tree, edited: Tree, q: Pair, k: string)
    requires AsRead(p.subs) && !p.loaded && k != ""
    requires Edited(Expanded(store, p).subs, edited.subs)
    requires q in PairsOf(edited.subs)
    ensures var again := Expanded(store, Reread(edited, true));
            && PairsOf(again.subs) == PairsOf(edited.subs)
            && OwnTurned(edited, again, k)
            && OwnAgain(Lookup(edited.subs, q), Lookup(again.subs, q), k)
            && |p.subs| <= |edited.subs| && |p.subs| <= |again.subs|
            && (forall j | 0 <= j < |p.subs| :: OwnAgain(edited.subs[j], again.subs[j], k))
            && (forall i, j | 0 <= i < j < |edited.subs| && |p.subs| <= j ::
                  PairOf(edited.subs[i]) != PairOf(edited.subs[j]))
  {
    hide Process, RereadAll, PairsOf, Values, Collect, Named, Reread;
    RereadIs(edited, true);
    OwnValuesTurn(edited, k);
    SamePairsAgain(store, p.subs, edited.subs);
    OwnDataAgain(store, p.subs, edited.subs, q, k);
    OwnDataInPlace(store, p.subs, edited.subs, k);
    ExpandedAndEdited(store, p.subs, edited.subs);
    forall i, j | 0 <= i < j < |edited.subs| && |p.subs| <= j ensures PairOf(edited.subs[i]) != PairOf(edited.subs[j]) {
      assert PairSeq(edited.subs)[i] in PairSeq(edited.subs)[..j];
    }
  }
}
