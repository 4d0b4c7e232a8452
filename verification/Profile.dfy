/** A profile: keys of its own, keys merged from other files, sub-profiles, and its DOM form. */
module Profiles {
  import opened Wrappers
  import opened MultiMaps

  // A field with everything but its name taken as one piece.
  datatype Field = Field(name: string, details: string)

  datatype Tree = Tree(
    name: string,
    ptype: string,
    loaded: bool,
    merged: bool,
    localKeys: MultiMap,
    mergedKeys: MultiMap,
    localFields: seq<Field>,
    mergedFields: seq<Field>,
    subs: seq<Tree>)

  function Bare(name: string, ptype: string): Tree {
    Tree(name, ptype, false, false, [], [], [], [], [])
  }

  // Reading and writing keys

  function Key(p: Tree, name: string, def: string): string {
    var local, merged := Lookup(p.localKeys, name), Lookup(p.mergedKeys, name);
    if local.Some? then local.value else if merged.Some? then merged.value else def
  }

  function KeyValues(p: Tree, name: string): seq<string> {
    Values(p.localKeys, name) + Values(p.mergedKeys, name)
  }

  function AllKeys(p: Tree): MultiMap {
    Unite(p.mergedKeys, p.localKeys)
  }

  function RemoveKey(p: Tree, name: string): Tree {
    p.(localKeys := Remove(p.localKeys, name), mergedKeys := Remove(p.mergedKeys, name))
  }

  function SetKey(p: Tree, name: string, value: Option<string>): Tree {
    if name == "" then p
    else
      match value
      case None => RemoveKey(p, name)
      case Some(v) => p.(localKeys := Insert(p.localKeys, name, v))
  }

  // Inserted from the last value to the first.
  function InsertAll(m: MultiMap, name: string, values: seq<string>): MultiMap {
    if values == [] then m else InsertMulti(InsertAll(m, name, values[1..]), name, values[0])
  }

  function SetKeyValues(p: Tree, name: string, values: seq<string>): Tree {
    var q := RemoveKey(p, name);
    q.(localKeys := InsertAll(q.localKeys, name, values))
  }

  ghost predicate OrderedKeys(p: Tree) {
    Ordered(p.localKeys) && Ordered(p.mergedKeys)
  }

  lemma KeyViewsAgree(p: Tree, name: string, def: string)
    ensures Values(AllKeys(p), name) == KeyValues(p, name)
    ensures Key(p, name, def) == if KeyValues(p, name) == [] then def else KeyValues(p, name)[0]
  {
    UnitedValues(p.mergedKeys, p.localKeys, name);
    LookupIsNewest(p.localKeys, name);
    LookupIsNewest(p.mergedKeys, name);
  }

  lemma {:induction false} InsertedAllValues(m: MultiMap, name: string, values: seq<string>, k: string)
    ensures Values(InsertAll(m, name, values), k) == (if k == name then values else []) + Values(m, k)
  {
    hide InsertMulti, Values;
    if values != [] {
      InsertedAllValues(m, name, values[1..], k);
      InsertedMultiValues(InsertAll(m, name, values[1..]), name, values[0], k);
      assert values == [values[0]] + values[1..];
    }
  }

  lemma {:induction false} InsertAllKeepsOrder(m: MultiMap, name: string, values: seq<string>)
    requires Ordered(m)
    ensures Ordered(InsertAll(m, name, values))
  {
    if values != [] {
      InsertAllKeepsOrder(m, name, values[1..]);
      InsertMultiKeepsOrder(InsertAll(m, name, values[1..]), name, values[0]);
    }
  }

  lemma SetKeyValuesReadBack(p: Tree, name: string, values: seq<string>, k: string)
    ensures KeyValues(SetKeyValues(p, name, values), k) == if k == name then values else KeyValues(p, k)
  {
    hide Values, InsertAll, Remove;
    RemovedValues(p.localKeys, name, k);
    RemovedValues(p.mergedKeys, name, k);
    InsertedAllValues(Remove(p.localKeys, name), name, values, k);
  }

  // Setting a key replaces the newest local value; only a null value removes anything else.
  lemma SetKeyReadBack(p: Tree, name: string, value: Option<string>, k: string)
    requires OrderedKeys(p) && name != ""
    ensures k != name ==> KeyValues(SetKey(p, name, value), k) == KeyValues(p, k)
    ensures KeyValues(SetKey(p, name, value), name) ==
            match value
            case None => []
            case Some(v) =>
              var was := KeyValues(p, name);
              [v] + if Lookup(p.localKeys, name).None? || was == [] then was else was[1..]
  {
    hide Values, Insert, Remove, Ordered;
    LookupIsNewest(p.localKeys, name);
    match value {
      case None =>
        RemovedValues(p.localKeys, name, k);
        RemovedValues(p.mergedKeys, name, k);
        RemovedValues(p.localKeys, name, name);
        RemovedValues(p.mergedKeys, name, name);
      case Some(v) =>
        InsertedValues(p.localKeys, name, v, k);
        InsertedValues(p.localKeys, name, v, name);
    }
  }

  lemma SettersKeepOrder(p: Tree, name: string, value: Option<string>, values: seq<string>)
    requires OrderedKeys(p)
    ensures OrderedKeys(RemoveKey(p, name))
    ensures OrderedKeys(SetKey(p, name, value))
    ensures OrderedKeys(SetKeyValues(p, name, values))
  {
    hide Insert, Remove, Ordered, InsertAll;
    RemoveKeepsOrder(p.localKeys, name);
    RemoveKeepsOrder(p.mergedKeys, name);
    if value.Some? {
      InsertKeepsOrder(p.localKeys, name, value.value);
    }
    InsertAllKeepsOrder(Remove(p.localKeys, name), name, values);
  }

  // Fields

  function FindField(fields: seq<Field>, name: string): Option<Field> {
    if fields == [] then None
    else if fields[0].name == name then Some(fields[0])
    else FindField(fields[1..], name)
  }

  function AllFields(p: Tree): seq<Field> {
    p.localFields + p.mergedFields
  }

  function AddFields(p: Tree, fields: seq<Field>): Tree
    decreases fields
  {
    if fields == [] then p
    else
      var q := if FindField(AllFields(p), fields[0].name).None?
               then p.(mergedFields := p.mergedFields + [fields[0]]) else p;
      AddFields(q, fields[1..])
  }

  lemma {:induction false} FindFieldConcat(a: seq<Field>, b: seq<Field>, name: string)
    ensures FindField(a + b, name) == if FindField(a, name).Some? then FindField(a, name) else FindField(b, name)
  {
    if a == [] {
      assert a + b == b;
    } else {
      assert (a + b)[1..] == a[1..] + b;
      FindFieldConcat(a[1..], b, name);
    }
  }

  lemma OneField(f: Field, name: string)
    ensures FindField([f], name) == if f.name == name then Some(f) else None
  {}

  // A field that was there stays; a new name gets the first of the source's fields with it.
  lemma {:induction false} AddedFields(p: Tree, fields: seq<Field>, name: string)
    ensures var q := AddFields(p, fields);
            && q == p.(mergedFields := q.mergedFields)
            && p.mergedFields <= q.mergedFields
            && FindField(AllFields(q), name) == FindField(AllFields(p) + fields, name)
    decreases fields
  {
    hide FindField;
    if fields == [] {
      assert AllFields(p) + fields == AllFields(p);
    } else {
      var f := fields[0];
      var q := if FindField(AllFields(p), f.name).None? then p.(mergedFields := p.mergedFields + [f]) else p;
      AddedFields(q, fields[1..], name);
      FindFieldConcat(AllFields(q), fields[1..], name);
      FindFieldConcat(AllFields(p), fields, name);
      assert fields == [f] + fields[1..];
      FindFieldConcat([f], fields[1..], name);
      if q != p {
        assert AllFields(q) == AllFields(p) + [f];
        FindFieldConcat(AllFields(p), [f], name);
      }
      OneField(f, name);
    }
  }

  // The fields of a name, in order.
  ghost function FieldsNamed(fields: seq<Field>, name: string): seq<Field> {
    if fields == [] then [] else (if fields[0].name == name then [fields[0]] else []) + FieldsNamed(fields[1..], name)
  }

  lemma {:induction false} FieldsNamedConcat(a: seq<Field>, b: seq<Field>, name: string)
    ensures FieldsNamed(a + b, name) == FieldsNamed(a, name) + FieldsNamed(b, name)
  {
    if a == [] {
      assert a + b == b;
    } else {
      var head := if a[0].name == name then [a[0]] else [];
      assert (a + b)[1..] == a[1..] + b && (a + b)[0] == a[0];
      FieldsNamedConcat(a[1..], b, name);
      assert FieldsNamed(a, name) == head + FieldsNamed(a[1..], name);
      assert FieldsNamed(a + b, name) == head + FieldsNamed(a[1..] + b, name);
    }
  }

  lemma {:induction false} FoundIsFirst(fields: seq<Field>, name: string)
    ensures FindField(fields, name)
         == if FieldsNamed(fields, name) == [] then None else Some(FieldsNamed(fields, name)[0])
  {
    if fields != [] { FoundIsFirst(fields[1..], name); }
  }

  lemma OneNamed(f: Field, name: string)
    ensures FieldsNamed([f], name) == if f.name == name then [f] else []
  {
    assert [f][1..] == [];
  }

  // Name by name: the fields that were there, or else the source's first one and no other.
  lemma {:induction false} AddedOnce(p: Tree, fields: seq<Field>, name: string)
    ensures var was, given := FieldsNamed(AllFields(p), name), FieldsNamed(fields, name);
            FieldsNamed(AllFields(AddFields(p, fields)), name) ==
              if was != [] || given == [] then was else [given[0]]
    decreases fields
  {
    if fields != [] {
      var f := fields[0];
      var q := if FindField(AllFields(p), f.name).None? then p.(mergedFields := p.mergedFields + [f]) else p;
      var head := if f.name == name then [f] else [];
      assert FieldsNamed(fields, name) == head + FieldsNamed(fields[1..], name);
      AddedOnce(q, fields[1..], name);
      FoundIsFirst(AllFields(p), f.name);
      if q != p {
        assert AllFields(q) == AllFields(p) + [f];
        FieldsNamedConcat(AllFields(p), [f], name);
        OneNamed(f, name);
      }
      hide FieldsNamed, FindField, AllFields;
      assert AddFields(p, fields) == AddFields(q, fields[1..]);
    }
  }

  // Merging

  // The first sub-profile with the name; an empty type asks for any type.
  function FindSub(subs: seq<Tree>, name: string, ptype: string): (i: nat)
    ensures i <= |subs|
  {
    if subs == [] || (subs[0].name == name && (ptype == "" || subs[0].ptype == ptype)) then 0
    else 1 + FindSub(subs[1..], name, ptype)
  }

  function Absorb(target: Tree, source: Tree): Tree {
    AddFields(
      target.(mergedKeys := Unite(Unite(target.mergedKeys, source.localKeys), source.mergedKeys)),
      AllFields(source))
  }

  /** What merging one profile into another makes of it: of each key, the source's merged values, then
      its local ones, then what was there; of each field name, what was there or the source's first;
      and nothing of its own changes. */
  lemma AbsorbOutcome(target: Tree, source: Tree, k: string, name: string)
    ensures var r := Absorb(target, source);
            && r == target.(mergedKeys := r.mergedKeys, mergedFields := r.mergedFields)
            && Values(r.mergedKeys, k)
               == Values(source.mergedKeys, k) + Values(source.localKeys, k) + Values(target.mergedKeys, k)
            && var was, given := FieldsNamed(AllFields(target), name), FieldsNamed(AllFields(source), name);
               FieldsNamed(AllFields(r), name) == if was != [] || given == [] then was else [given[0]]
  {
    hide Values, Unite, AddFields, FieldsNamed;
    var keyed := target.(mergedKeys := Unite(Unite(target.mergedKeys, source.localKeys), source.mergedKeys));
    UnitedValues(target.mergedKeys, source.localKeys, k);
    UnitedValues(Unite(target.mergedKeys, source.localKeys), source.mergedKeys, k);
    AddedFields(keyed, AllFields(source), name);
    AddedOnce(keyed, AllFields(source), name);
  }

  // No sub-profile is made without a type.
  function MergeOne(subs: seq<Tree>, source: Tree): seq<Tree> {
    var i := FindSub(subs, source.name, source.ptype);
    if i < |subs| then subs[i := Absorb(subs[i], source)]
    else if source.ptype == "" then subs
    else subs + [Absorb(Bare(source.name, source.ptype).(merged := true), source)]
  }

  function Flatten(t: Tree): seq<Tree> {
    [t] + FlattenAll(t.subs)
  }

  function FlattenAll(ts: seq<Tree>): seq<Tree> {
    if ts == [] then [] else Flatten(ts[0]) + FlattenAll(ts[1..])
  }

  // A profile itself, or anywhere below it.
  ghost predicate Within(t: Tree, x: Tree) {
    x == t || exists i :: 0 <= i < |t.subs| && Within(t.subs[i], x)
  }

  // The flat list has the profile itself first and then everything below it, child by child.
  lemma {:induction false} FlattenIsTree(t: Tree, x: Tree)
    ensures x in Flatten(t) <==> Within(t, x)
    ensures Flatten(t)[0] == t && Flatten(t)[1..] == FlattenAll(t.subs)
  {
    FlattenAllIsBelow(t.subs, x);
  }

  lemma {:induction false} FlattenAllIsBelow(ts: seq<Tree>, x: Tree)
    ensures x in FlattenAll(ts) <==> exists i :: 0 <= i < |ts| && Within(ts[i], x)
  {
    if ts != [] {
      FlattenIsTree(ts[0], x);
      FlattenAllIsBelow(ts[1..], x);
      assert forall i | 0 < i < |ts| :: ts[i] == ts[1..][i - 1];
    }
  }

  function MergeAll(subs: seq<Tree>, sources: seq<Tree>): seq<Tree>
    decreases sources
  {
    if sources == [] then subs else MergeAll(MergeOne(subs, sources[0]), sources[1..])
  }

  lemma {:induction false} MergeAllConcat(subs: seq<Tree>, a: seq<Tree>, b: seq<Tree>)
    ensures MergeAll(subs, a + b) == MergeAll(MergeAll(subs, a), b)
    decreases a
  {
    if a == [] {
      assert a + b == b;
    } else {
      assert (a + b)[1..] == a[1..] + b;
      MergeAllConcat(MergeOne(subs, a[0]), a[1..], b);
    }
  }

  lemma {:induction false} FlattenAllConcat(a: seq<Tree>, b: seq<Tree>)
    ensures FlattenAll(a + b) == FlattenAll(a) + FlattenAll(b)
  {
    if a == [] {
      assert a + b == b;
    } else {
      assert (a + b)[1..] == a[1..] + b;
      FlattenAllConcat(a[1..], b);
    }
  }
}
