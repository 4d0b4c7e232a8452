/** Printing a profile to a DOM tree and reading it back. */
module ProfileDom {
  import opened Wrappers
  import opened MultiMaps
  import opened Profiles

  datatype Node =
    | KeyNode(name: string, value: Option<string>)
    | FieldNode(field: Field)
    | ProfileNode(id: string, ptype: string, children: seq<Node>)
    | OtherNode(tag: string)

  function KeyNodes(m: MultiMap): seq<Node> {
    seq(|m|, i requires 0 <= i < |m| => KeyNode(m[i].key, Some(m[i].value)))
  }

  function FieldNodes(fs: seq<Field>): seq<Node> {
    seq(|fs|, i requires 0 <= i < |fs| => FieldNode(fs[i]))
  }

  // A sub-profile that came from a merge and has nothing of its own is not written.
  predicate Written(t: Tree) {
    !t.merged || t.localKeys != [] || t.localFields != []
  }

  function OwnNodes(p: Tree, localOnly: bool): seq<Node> {
    KeyNodes(p.localKeys) + FieldNodes(p.localFields)
    + if localOnly then [] else KeyNodes(p.mergedKeys) + FieldNodes(p.mergedFields)
  }

  function ToXml(p: Tree, localOnly: bool): (n: Node)
    ensures n.ProfileNode?
  {
    ProfileNode(p.name, p.ptype, OwnNodes(p, localOnly) + SubNodes(p.subs, localOnly))
  }

  function SubNodes(subs: seq<Tree>, localOnly: bool): seq<Node> {
    if subs == [] then []
    else (if Written(subs[0]) then [ToXml(subs[0], localOnly)] else []) + SubNodes(subs[1..], localOnly)
  }

  // A key needs a name and a value.
  function KeysIn(ns: seq<Node>): seq<Entry> {
    if ns == [] then []
    else
      var n := ns[0];
      (if n.KeyNode? && n.name != "" && n.value.Some? then [Entry(n.name, n.value.value)] else []) + KeysIn(ns[1..])
  }

  function FieldsIn(ns: seq<Node>): seq<Field> {
    if ns == [] then [] else (if ns[0].FieldNode? then [ns[0].field] else []) + FieldsIn(ns[1..])
  }

  function Parse(n: Node): Tree
    requires n.ProfileNode?
  {
    Tree(n.id, n.ptype, false, false, Collect(KeysIn(n.children)), [], FieldsIn(n.children), [], SubsIn(n.children))
  }

  function SubsIn(ns: seq<Node>): seq<Tree> {
    if ns == [] then [] else (if ns[0].ProfileNode? then [Parse(ns[0])] else []) + SubsIn(ns[1..])
  }

  // Written and read again.
  function Reread(p: Tree, localOnly: bool): Tree {
    Parse(ToXml(p, localOnly))
  }

  function RereadAll(subs: seq<Tree>, localOnly: bool): seq<Tree> {
    if subs == [] then []
    else (if Written(subs[0]) then [Reread(subs[0], localOnly)] else []) + RereadAll(subs[1..], localOnly)
  }

  // The entries a reader accepts.
  function Named(m: MultiMap): seq<Entry> {
    if m == [] then [] else (if m[0].key != "" then [m[0]] else []) + Named(m[1..])
  }

  lemma {:induction false} KeysConcat(a: seq<Node>, b: seq<Node>)
    ensures KeysIn(a + b) == KeysIn(a) + KeysIn(b)
  {
    if a == [] {
      assert a + b == b;
    } else {
      var n := a[0];
      var head := if n.KeyNode? && n.name != "" && n.value.Some? then [Entry(n.name, n.value.value)] else [];
      assert (a + b)[1..] == a[1..] + b && (a + b)[0] == n;
      KeysConcat(a[1..], b);
      assert KeysIn(a) == head + KeysIn(a[1..]);
      assert KeysIn(a + b) == head + KeysIn(a[1..] + b);
    }
  }

  lemma {:induction false} FieldsConcat(a: seq<Node>, b: seq<Node>)
    ensures FieldsIn(a + b) == FieldsIn(a) + FieldsIn(b)
  {
    if a == [] {
      assert a + b == b;
    } else {
      var head := if a[0].FieldNode? then [a[0].field] else [];
      assert (a + b)[1..] == a[1..] + b && (a + b)[0] == a[0];
      FieldsConcat(a[1..], b);
      assert FieldsIn(a) == head + FieldsIn(a[1..]);
      assert FieldsIn(a + b) == head + FieldsIn(a[1..] + b);
    }
  }

  lemma {:induction false} SubsConcat(a: seq<Node>, b: seq<Node>)
    ensures SubsIn(a + b) == SubsIn(a) + SubsIn(b)
  {
    hide Parse;
    if a == [] {
      assert a + b == b;
    } else {
      var head := if a[0].ProfileNode? then [Parse(a[0])] else [];
      assert (a + b)[1..] == a[1..] + b && (a + b)[0] == a[0];
      SubsConcat(a[1..], b);
      assert SubsIn(a) == head + SubsIn(a[1..]);
      assert SubsIn(a + b) == head + SubsIn(a[1..] + b);
    }
  }

  lemma NodesConcat(a: seq<Node>, b: seq<Node>)
    ensures KeysIn(a + b) == KeysIn(a) + KeysIn(b)
    ensures FieldsIn(a + b) == FieldsIn(a) + FieldsIn(b)
    ensures SubsIn(a + b) == SubsIn(a) + SubsIn(b)
  {
    KeysConcat(a, b);
    FieldsConcat(a, b);
    SubsConcat(a, b);
  }

  lemma {:induction false} ReadKeyNodes(m: MultiMap)
    ensures var ns := KeyNodes(m); KeysIn(ns) == Named(m) && FieldsIn(ns) == [] && SubsIn(ns) == []
  {
    if m != [] {
      assert KeyNodes(m)[1..] == KeyNodes(m[1..]);
      ReadKeyNodes(m[1..]);
    }
  }

  lemma {:induction false} ReadFieldNodes(fs: seq<Field>)
    ensures var ns := FieldNodes(fs); KeysIn(ns) == [] && FieldsIn(ns) == fs && SubsIn(ns) == []
  {
    if fs != [] {
      assert FieldNodes(fs)[1..] == FieldNodes(fs[1..]);
      ReadFieldNodes(fs[1..]);
      assert fs == [fs[0]] + fs[1..];
    }
  }

  lemma {:induction false} ReadSubNodes(subs: seq<Tree>, localOnly: bool)
    ensures var ns := SubNodes(subs, localOnly);
            KeysIn(ns) == [] && FieldsIn(ns) == [] && SubsIn(ns) == RereadAll(subs, localOnly)
  {
    hide Parse, ToXml;
    if subs != [] {
      ReadSubNodes(subs[1..], localOnly);
      var ns := SubNodes(subs, localOnly);
      if Written(subs[0]) {
        assert ns[1..] == SubNodes(subs[1..], localOnly);
      } else {
        assert ns == SubNodes(subs[1..], localOnly);
        assert RereadAll(subs, localOnly) == RereadAll(subs[1..], localOnly);
      }
    }
  }

  lemma ReadOwnNodes(p: Tree, localOnly: bool)
    ensures var ns := OwnNodes(p, localOnly);
            && KeysIn(ns) == Named(p.localKeys) + (if localOnly then [] else Named(p.mergedKeys))
            && FieldsIn(ns) == p.localFields + (if localOnly then [] else p.mergedFields)
            && SubsIn(ns) == []
  {
    hide KeysIn, FieldsIn, SubsIn, KeyNodes, FieldNodes, Named;
    var k, f := KeyNodes(p.localKeys), FieldNodes(p.localFields);
    ReadKeyNodes(p.localKeys);
    ReadFieldNodes(p.localFields);
    NodesConcat(k, f);
    if localOnly {
      assert OwnNodes(p, localOnly) == k + f;
    } else {
      var mk, mf := KeyNodes(p.mergedKeys), FieldNodes(p.mergedFields);
      ReadKeyNodes(p.mergedKeys);
      ReadFieldNodes(p.mergedFields);
      NodesConcat(mk, mf);
      NodesConcat(k + f, mk + mf);
    }
  }

  // What comes back, in terms of the profile that was written.
  lemma RereadIs(p: Tree, localOnly: bool)
    ensures Reread(p, localOnly) ==
            Tree(p.name, p.ptype, false, false,
                 Collect(Named(p.localKeys) + if localOnly then [] else Named(p.mergedKeys)), [],
                 p.localFields + if localOnly then [] else p.mergedFields, [],
                 RereadAll(p.subs, localOnly))
  {
    hide KeysIn, FieldsIn, SubsIn, KeyNodes, FieldNodes, SubNodes, Collect, Named, RereadAll;
    var own, subs := OwnNodes(p, localOnly), SubNodes(p.subs, localOnly);
    ReadOwnNodes(p, localOnly);
    ReadSubNodes(p.subs, localOnly);
    NodesConcat(own, subs);
    assert KeysIn(own) + [] == KeysIn(own) && FieldsIn(own) + [] == FieldsIn(own);
    assert [] + SubsIn(subs) == SubsIn(subs);
  }

  // The texts of the key elements of a name.
  ghost function Texts(ns: seq<Node>, k: string): seq<string> {
    if ns == [] then []
    else
      var n := ns[0];
      (if n.KeyNode? && n.name == k && n.value.Some? then [n.value.value] else []) + Texts(ns[1..], k)
  }

  lemma {:induction false} KeysInAre(ns: seq<Node>, k: string)
    ensures Values(KeysIn(ns), k) == if k == "" then [] else Texts(ns, k)
  {
    if ns != [] {
      var n := ns[0];
      var head := if n.KeyNode? && n.name != "" && n.value.Some? then [Entry(n.name, n.value.value)] else [];
      KeysInAre(ns[1..], k);
      ValuesConcat(head, KeysIn(ns[1..]), k);
      assert [Entry(k, "")][1..] == [];
      assert head != [] ==> head[1..] == [];
    }
  }

  /** What reading any profile element gives: its attributes, nothing merged or loaded, and of each key
      the texts of its elements, the last one in front; elements without a name or a value do not
      count. */
  lemma ParseOutcome(n: Node, k: string)
    requires n.ProfileNode?
    ensures var p := Parse(n);
            && p.name == n.id && p.ptype == n.ptype && !p.loaded && !p.merged
            && p.mergedKeys == [] && p.mergedFields == []
            && KeyValues(p, k) == if k == "" then [] else Reversed(Texts(n.children, k))
  {
    hide Collect, KeysIn, Values, FieldsIn, SubsIn;
    CollectedValues(KeysIn(n.children), k);
    KeysInAre(n.children, k);
    Absent([], k);
  }

  lemma {:induction false} WrittenAre(subs: seq<Tree>, localOnly: bool, x: Tree)
    ensures x in RereadAll(subs, localOnly) <==>
            exists i | 0 <= i < |subs| ::
              (!subs[i].merged || subs[i].localKeys != [] || subs[i].localFields != [])
              && x == Reread(subs[i], localOnly)
  {
    hide Reread;
    if subs != [] {
      WrittenAre(subs[1..], localOnly, x);
      assert forall i | 0 < i < |subs| :: subs[i] == subs[1..][i - 1];
    }
  }

  /** What writing gives: the attributes, an element for each local key first, and each sub-profile that
      is the profile's own or has keys or fields of its own. */
  lemma WriteOutcome(p: Tree, localOnly: bool, x: Tree)
    ensures var n := ToXml(p, localOnly);
            && n.id == p.name && n.ptype == p.ptype
            && |n.children| >= |p.localKeys|
            && forall i | 0 <= i < |p.localKeys| ::
                 n.children[i] == KeyNode(p.localKeys[i].key, Some(p.localKeys[i].value))
    ensures x in RereadAll(p.subs, localOnly) <==>
            exists i | 0 <= i < |p.subs| ::
              (!p.subs[i].merged || p.subs[i].localKeys != [] || p.subs[i].localFields != [])
              && x == Reread(p.subs[i], localOnly)
  {
    WrittenAre(p.subs, localOnly, x);
  }

  lemma {:induction false} NamedValues(m: MultiMap, k: string)
    ensures Values(Named(m), k) == if k == "" then [] else Values(m, k)
  {
    if m != [] {
      NamedValues(m[1..], k);
      if m[0].key != "" {
        assert ([m[0]] + Named(m[1..]))[1..] == Named(m[1..]);
      } else {
        assert Named(m) == Named(m[1..]);
      }
    }
  }

  // The values of a key come back in reverse; keys without a name do not come back.
  lemma RereadReversesValues(p: Tree, localOnly: bool, k: string)
    ensures var printed := Values(p.localKeys, k) + if localOnly then [] else Values(p.mergedKeys, k);
            KeyValues(Reread(p, localOnly), k) == if k == "" then [] else Reversed(printed)
  {
    hide Values, Collect, Named, Reread, RereadAll;
    RereadIs(p, localOnly);
    var entries := Named(p.localKeys) + if localOnly then [] else Named(p.mergedKeys);
    CollectedValues(entries, k);
    ValuesConcat(Named(p.localKeys), if localOnly then [] else Named(p.mergedKeys), k);
    NamedValues(p.localKeys, k);
    NamedValues(p.mergedKeys, k);
    Absent([], k);
  }

  lemma {:induction false} ReversedEnds(s: seq<string>)
    requires s != []
    ensures Reversed(s)[0] == s[|s| - 1]
  {
    if |s| > 1 {
      ReversedEnds(s[1..]);
    }
  }

  /** Writing a profile with its merged keys turns precedence around: the reader of the result finds
      the last of the key's values where the writer found the first. */
  lemma FullPrintKeepsKeyIff(p: Tree, k: string, def: string)
    requires k != "" && KeyValues(p, k) != []
    ensures var vs := KeyValues(p, k);
            && Key(Reread(p, false), k, def) == vs[|vs| - 1]
            && (Key(Reread(p, false), k, def) == Key(p, k, def) <==> vs[0] == vs[|vs| - 1])
  {
    hide Values, Reread, Reversed;
    RereadReversesValues(p, false, k);
    KeyViewsAgree(p, k, def);
    KeyViewsAgree(Reread(p, false), k, def);
    ReversedEnds(KeyValues(p, k));
  }

  /** A local "a" hides a merged "b" of the same key; after writing with merged keys "b" is found. */
  lemma FullPrintTurnsPrecedence()
    ensures var p := Bare("p", "c").(localKeys := [Entry("k", "a")], mergedKeys := [Entry("k", "b")]);
            Key(p, "k", "") == "a" && Key(Reread(p, false), "k", "") == "b"
  {
    var p := Bare("p", "c").(localKeys := [Entry("k", "a")], mergedKeys := [Entry("k", "b")]);
    assert Values(p.localKeys, "k") == ["a"] && Values(p.mergedKeys, "k") == ["b"];
    assert KeyValues(p, "k") == ["a", "b"];
    hide Reread;
    FullPrintKeepsKeyIff(p, "k", "");
    KeyViewsAgree(p, "k", "");
  }

  // Local keys with one value survive writing only local data.
  lemma SingleLocalKeySurvives(p: Tree, k: string, def: string)
    requires k != "" && |Values(p.localKeys, k)| == 1
    ensures Key(Reread(p, true), k, def) == Key(p, k, def)
    ensures Values(Reread(p, true).localKeys, k) == Values(p.localKeys, k)
  {
    hide Values, Reread;
    var vs := Values(p.localKeys, k);
    RereadReversesValues(p, true, k);
    RereadIs(p, true);
    Absent([], k);
    KeyViewsAgree(p, k, def);
    KeyViewsAgree(Reread(p, true), k, def);
    assert vs + [] == vs && Reversed(vs) == vs by {
      assert vs == [vs[0]];
    }
  }

  // What a file can hold of a profile.
  function Fresh(p: Tree): Tree {
    Tree(p.name, p.ptype, false, false, p.localKeys, [], p.localFields, [], FreshAll(p.subs))
  }

  function FreshAll(subs: seq<Tree>): seq<Tree> {
    if subs == [] then []
    else (if Written(subs[0]) then [Fresh(subs[0])] else []) + FreshAll(subs[1..])
  }

  // Ordered maps without nameless keys, all the way down.
  ghost predicate Writable(p: Tree) {
    Ordered(p.localKeys) && (forall e | e in p.localKeys :: e.key != "") && AllWritable(p.subs)
  }

  ghost predicate AllWritable(subs: seq<Tree>) {
    subs != [] ==> Writable(subs[0]) && AllWritable(subs[1..])
  }

  lemma {:induction false} NamedAll(m: MultiMap)
    requires forall e | e in m :: e.key != ""
    ensures Named(m) == m
  {
    if m != [] {
      NamedAll(m[1..]);
    }
  }

  lemma {:induction false} CollectedMembers(entries: seq<Entry>)
    ensures forall e :: e in Collect(entries) <==> e in entries
  {
    if entries != [] {
      var n := |entries| - 1;
      CollectedMembers(entries[..n]);
      InsertedMultiMembers(Collect(entries[..n]), entries[n].key, entries[n].value);
      assert entries == entries[..n] + [entries[n]];
    }
  }

  // Reading twice restores the map itself.
  lemma CollectTwice(m: MultiMap)
    requires Ordered(m) && forall e | e in m :: e.key != ""
    ensures Collect(Named(Collect(Named(m)))) == m
  {
    hide Values, Collect, Ordered, Named;
    NamedAll(m);
    var c := Collect(m);
    CollectedMembers(m);
    NamedAll(c);
    CollectIsOrdered(c);
    forall k ensures Values(Collect(c), k) == Values(m, k) {
      CollectedValues(m, k);
      CollectedValues(c, k);
      ReversedTwice(Values(m, k));
    }
    SameValuesSameMap(Collect(c), m);
  }

  /** Saving local data and reading it back, twice over, gives the profile's own data exactly. */
  lemma {:induction false} TwoRoundTripsAreIdentity(p: Tree)
    requires Writable(p)
    ensures Reread(Reread(p, true), true) == Fresh(p)
    decreases p
  {
    hide Collect, Named, Reread, RereadAll, Ordered, FreshAll;
    RereadIs(p, true);
    RereadIs(Reread(p, true), true);
    assert Named(p.localKeys) + [] == Named(p.localKeys);
    var once := Collect(Named(p.localKeys));
    assert Named(once) + [] == Named(once);
    CollectTwice(p.localKeys);
    TwiceAll(p.subs);
    assert p.localFields + [] + [] == p.localFields;
  }

  lemma {:induction false} TwiceAll(subs: seq<Tree>)
    requires AllWritable(subs)
    ensures RereadAll(RereadAll(subs, true), true) == FreshAll(subs)
    decreases subs
  {
    hide Reread, Fresh, Writable;
    if subs != [] {
      TwiceAll(subs[1..]);
      var rest := RereadAll(subs[1..], true);
      if Written(subs[0]) {
        TwoRoundTripsAreIdentity(subs[0]);
        RereadIs(subs[0], true);
        assert ([Reread(subs[0], true)] + rest)[1..] == rest;
      } else {
        assert RereadAll(subs, true) == rest;
        assert FreshAll(subs) == FreshAll(subs[1..]);
      }
    }
  }
}
