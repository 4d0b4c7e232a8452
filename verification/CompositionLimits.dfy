/** A merged value that does not survive saving: its reference names no type. */
module CompositionLimits {
  import opened MultiMaps
  import opened Profiles
  import opened ProfileDom
  import opened Composition
  import opened SavedProfiles
  import opened MergedValues

  // A file "a" that lists x twice with a type and once without.
  const XS := Bare("x", "s")
  const XT := Bare("x", "t")
  const UNTYPED := Bare("x", "").(localKeys := [Entry("k", "v")])
  const FILE := Bare("a", "c").(subs := [XS, XT, UNTYPED])
  const FILES: Store := map[("a", "c") := FILE]
  const A := Bare("a", "c")
  const EDIT := XT.(merged := true, loaded := true, localKeys := [Entry("l", "w")])

  lemma FlatFile()
    ensures Flatten(FILE) == [FILE, XS, XT, UNTYPED]
  {
    assert Flatten(XS) == [XS] && Flatten(XT) == [XT] && Flatten(UNTYPED) == [UNTYPED];
    assert FlattenAll([UNTYPED]) == [UNTYPED];
    assert FlattenAll([XT, UNTYPED]) == [XT] + [UNTYPED];
    assert FlattenAll([XS, XT, UNTYPED]) == [XS] + [XT, UNTYPED];
  }

  lemma Found(subs: seq<Tree>, name: string, ptype: string, i: nat)
    requires i <= |subs| <= 3
    requires forall j | 0 <= j < i :: !(subs[j].name == name && (ptype == "" || subs[j].ptype == ptype))
    requires i < |subs| ==> subs[i].name == name && (ptype == "" || subs[i].ptype == ptype)
    ensures FindSub(subs, name, ptype) == i
    decreases i
  {
    if i > 0 {
      Found(subs[1..], name, ptype, i - 1);
    }
  }

  lemma NothingToAbsorb(t: Tree, source: Tree)
    requires source.localKeys == [] && source.mergedKeys == [] && AllFields(source) == []
    ensures Absorb(t, source) == t
  {}

  // The file's typed profiles hold no keys: they only find their place.
  lemma MergesInto(subs: seq<Tree>, source: Tree, i: nat)
    requires i < |subs| <= 3 && source in {FILE, XS, XT} && PairOf(subs[i]) == PairOf(source)
    requires forall j | 0 <= j < i :: PairOf(subs[j]) != PairOf(source)
    ensures MergeOne(subs, source) == subs
  {
    Found(subs, source.name, source.ptype, i);
    NothingToAbsorb(subs[i], source);
  }

  lemma MergesNew(subs: seq<Tree>, source: Tree)
    requires |subs| <= 3 && source in {XS, XT}
    requires forall j | 0 <= j < |subs| :: PairOf(subs[j]) != PairOf(source)
    ensures MergeOne(subs, source) == subs + [source.(merged := true)]
  {
    Found(subs, source.name, source.ptype, |subs|);
    NothingToAbsorb(source.(merged := true), source);
  }

  lemma AbsorbsValue(t: Tree)
    requires t.mergedKeys == []
    ensures Absorb(t, UNTYPED) == t.(mergedKeys := [Entry("k", "v")])
  {}

  // The untyped one goes to the first x there is.
  lemma MergesValue(subs: seq<Tree>)
    requires |subs| == 3 && subs[0].name != "x" && subs[1].name == "x" && subs[1].mergedKeys == []
    ensures MergeOne(subs, UNTYPED) == subs[1 := subs[1].(mergedKeys := [Entry("k", "v")])]
  {
    Found(subs, "x", "", 1);
    AbsorbsValue(subs[1]);
  }

  // Loading x finds no file.
  lemma NoFileForX(subs: seq<Tree>)
    requires |subs| == 3 && subs[1].name == subs[2].name == "x" && !subs[1].loaded && !subs[2].loaded
    ensures 1 <= |subs| && Process(FILES, subs, 1) == [subs[0], subs[1].(loaded := true), subs[2].(loaded := true)]
  {
    assert forall p | p in FILES :: p.0 != "x";
    var one := subs[1 := subs[1].(loaded := true)];
    var two := one[2 := one[2].(loaded := true)];
    assert LoadOne(FILES, subs, 1) == one;
    assert LoadOne(FILES, one, 2) == two;
    assert Process(FILES, one, 2) == two;
  }

  lemma LoadFirst(subs: seq<Tree>)
    requires subs != [] && !subs[0].loaded
    ensures var one := LoadOne(FILES, subs, 0);
            |one| >= 1 && Process(FILES, subs, 0) == Process(FILES, one, 1)
  {
    LoadingShrinks(FILES, subs, 0);
  }

  lemma Merges4(s0: seq<Tree>, s1: seq<Tree>, s2: seq<Tree>, s3: seq<Tree>, s4: seq<Tree>,
                a: Tree, b: Tree, c: Tree, d: Tree)
    requires MergeOne(s0, a) == s1 && MergeOne(s1, b) == s2 && MergeOne(s2, c) == s3 && MergeOne(s3, d) == s4
    ensures MergeAll(s0, [a, b, c, d]) == s4
  {
    hide MergeOne;
    assert MergeAll(s3, [d]) == s4;
    assert MergeAll(s2, [c, d]) == s4;
    assert MergeAll(s1, [b, c, d]) == s4;
  }

  lemma FirstLoad()
    ensures Process(FILES, [A], 0) ==
            [A.(loaded := true), XS.(merged := true, loaded := true, mergedKeys := [Entry("k", "v")]),
             XT.(merged := true, loaded := true)]
  {
    hide MergeOne, Flatten, Process;
    FlatFile();
    var xs, xt := XS.(merged := true), XT.(merged := true);
    var xsv := xs.(mergedKeys := [Entry("k", "v")]);
    MergesInto([A], FILE, 0);
    MergesNew([A], XS);
    MergesNew([A, xs], XT);
    MergesValue([A, xs, xt]);
    Merges4([A], [A], [A, xs], [A, xs, xt], [A, xsv, xt], FILE, XS, XT, UNTYPED);
    assert LoadOne(FILES, [A], 0) == [A.(loaded := true), xsv, xt];
    LoadFirst([A]);
    NoFileForX([A.(loaded := true), xsv, xt]);
  }

  lemma SecondLoad()
    ensures Process(FILES, [A, EDIT.(loaded := false, merged := false)], 0) ==
            [A.(loaded := true), EDIT.(merged := false, mergedKeys := [Entry("k", "v")]),
             XS.(merged := true, loaded := true)]
  {
    hide MergeOne, Flatten, Process;
    FlatFile();
    var xs, xt := XS.(merged := true), EDIT.(loaded := false, merged := false);
    var xtv := xt.(mergedKeys := [Entry("k", "v")]);
    MergesInto([A, xt], FILE, 0);
    MergesNew([A, xt], XS);
    MergesInto([A, xt, xs], XT, 1);
    MergesValue([A, xt, xs]);
    Merges4([A, xt], [A, xt], [A, xt, xs], [A, xt, xs], [A, xtv, xs], FILE, XS, XT, UNTYPED);
    assert LoadOne(FILES, [A, xt], 0) == [A.(loaded := true), xtv, xs];
    LoadFirst([A, xt]);
    NoFileForX([A.(loaded := true), xtv, xs]);
  }

  const P := Bare("p", "sync").(subs := [A])
  const XSV := XS.(merged := true, loaded := true, mergedKeys := [Entry("k", "v")])
  const EDITED := P.(loaded := true, subs := [A.(loaded := true), XSV, EDIT])

  lemma EditedComesBack()
    ensures Reread(EDITED, true) == P.(subs := [A, EDIT.(loaded := false, merged := false)])
  {
    var saved := EDIT.(loaded := false, merged := false);
    RereadIs(EDITED, true);
    RereadIs(A.(loaded := true), true);
    RereadIs(EDIT, true);
    hide Reread;
    assert Collect(Named(EDIT.localKeys) + []) == EDIT.localKeys;
    assert RereadAll([EDIT], true) == [saved];
    assert RereadAll([XSV, EDIT], true) == [saved];
    assert RereadAll(EDITED.subs, true) == [A, saved];
  }

  lemma EditIsAllowed()
    ensures AsRead(P.subs) && Edited(Expanded(FILES, P).subs, EDITED.subs)
  {
    hide Process;
    FirstLoad();
  }

  lemma OnlyInSecond(ts: seq<Tree>, q: Pair)
    requires |ts| == 3 && ts[0].mergedKeys == ts[2].mergedKeys == [] && ts[1].mergedKeys == [Entry("k", "v")]
    ensures MergedIn(ts, q, "k") == if PairOf(ts[1]) == q then multiset{"v"} else multiset{}
  {
    assert Values(ts[1].mergedKeys, "k") == ["v"] && multiset(["v"]) == multiset{"v"};
    assert MergedIn(ts[2..], q, "k") == Share(ts[2], q, "k") == multiset{};
    assert MergedIn(ts[1..], q, "k") == Share(ts[1], q, "k") by { assert ts[1..][1..] == ts[2..]; }
    assert Share(ts[0], q, "k") == multiset{};
  }

  /** With a reference that names no type, a merged value can come back to another sub-profile. */
  lemma UntypedValueCanMove()
    ensures AsRead(P.subs) && Edited(Expanded(FILES, P).subs, EDITED.subs)
    ensures MergedIn(Expanded(FILES, P).subs, ("x", "s"), "k") == multiset{"v"}
    ensures var again := Expanded(FILES, Reread(EDITED, true)).subs;
            MergedIn(again, ("x", "s"), "k") == multiset{} && MergedIn(again, ("x", "t"), "k") == multiset{"v"}
  {
    EditIsAllowed();
    hide Process, Reread, Edited, AsRead, MergedIn;
    FirstLoad();
    SecondLoad();
    EditedComesBack();
    OnlyInSecond([A.(loaded := true), XSV, XT.(merged := true, loaded := true)], ("x", "s"));
    var again := [A.(loaded := true), EDIT.(merged := false, mergedKeys := [Entry("k", "v")]),
                  XS.(merged := true, loaded := true)];
    OnlyInSecond(again, ("x", "t"));
    OnlyInSecond(again, ("x", "s"));
  }
}
