/** The profile as an object, each method proved against the functions of Profile.dfy. */
module ProfileObjects {
  import opened Wrappers
  import opened MultiMaps
  import opened Profiles

  /** The object whose keys and sub-profiles change in place. */
  class Profile {
    const name: string
    const ptype: string
    var loaded: bool
    var merged: bool
    var localKeys: MultiMap
    var mergedKeys: MultiMap
    var localFields: seq<Field>
    var mergedFields: seq<Field>
    var subProfiles: seq<Tree>

    ghost function View(): Tree reads this {
      Tree(name, ptype, loaded, merged, localKeys, mergedKeys, localFields, mergedFields, subProfiles)
    }

    constructor (t: Tree)
      ensures View() == t
    {
      name, ptype, loaded, merged := t.name, t.ptype, t.loaded, t.merged;
      localKeys, mergedKeys, localFields, mergedFields := t.localKeys, t.mergedKeys, t.localFields, t.mergedFields;
      subProfiles := t.subs;
    }

    method KeyOf(keyName: string, def: string) returns (value: string)
      ensures value == Key(View(), keyName, def)
      ensures value == if KeyValues(View(), keyName) == [] then def else KeyValues(View(), keyName)[0]
    {
      KeyViewsAgree(View(), keyName, def);
      var v := Lookup(localKeys, keyName);
      if v.None? {
        v := Lookup(mergedKeys, keyName);
      }
      value := if v.Some? then v.value else def;
    }

    method SetKey(keyName: string, value: Option<string>)
      requires OrderedKeys(View())
      modifies this
      ensures View() == old(Profiles.SetKey(View(), keyName, value)) && OrderedKeys(View())
    {
      SettersKeepOrder(View(), keyName, value, []);
      if keyName == "" {
        return;
      }
      if value.None? {
        localKeys := Remove(localKeys, keyName);
        mergedKeys := Remove(mergedKeys, keyName);
      } else {
        localKeys := Insert(localKeys, keyName, value.value);
      }
    }

    method RemoveKey(keyName: string)
      requires OrderedKeys(View())
      modifies this
      ensures View() == old(Profiles.RemoveKey(View(), keyName)) && OrderedKeys(View())
    {
      SettersKeepOrder(View(), keyName, None, []);
      localKeys := Remove(localKeys, keyName);
      mergedKeys := Remove(mergedKeys, keyName);
    }

    method SetKeyValues(keyName: string, values: seq<string>)
      requires OrderedKeys(View())
      modifies this
      ensures View() == old(Profiles.SetKeyValues(View(), keyName, values)) && OrderedKeys(View())
      ensures forall k :: KeyValues(View(), k) == if k == keyName then values else KeyValues(old(View()), k)
    {
      hide InsertMulti, Remove, Ordered, KeyValues;
      SettersKeepOrder(View(), keyName, None, values);
      AllValuesReadBack(View(), keyName, values);
      RemoveKey(keyName);
      if values == [] {
        return;
      }
      ghost var emptied := localKeys;
      var i := |values|;
      while i > 0
        invariant 0 <= i <= |values|
        invariant localKeys == InsertAll(emptied, keyName, values[i..])
        modifies this`localKeys
      {
        i := i - 1;
        localKeys := InsertMulti(localKeys, keyName, values[i]);
        assert values[i..] == [values[i]] + values[i + 1..];
      }
      assert values[0..] == values;
    }

    static lemma AllValuesReadBack(p: Tree, keyName: string, values: seq<string>)
      ensures forall k :: KeyValues(Profiles.SetKeyValues(p, keyName, values), k) ==
                          if k == keyName then values else KeyValues(p, k)
    {
      hide KeyValues, Profiles.SetKeyValues;
      forall k {
        SetKeyValuesReadBack(p, keyName, values, k);
      }
    }

    method SetLoaded(on: bool)
      modifies this`loaded
      ensures loaded == on
    {
      loaded := on;
    }

    method SetSubLoaded(i: nat)
      requires i < |subProfiles|
      modifies this`subProfiles
      ensures subProfiles == old(subProfiles)[i := old(subProfiles)[i].(loaded := true)]
    {
      subProfiles := subProfiles[i := subProfiles[i].(loaded := true)];
    }

    method FindSubProfile(subName: string, subType: string) returns (i: nat)
      ensures i == FindSub(subProfiles, subName, subType)
    {
      i := 0;
      while i < |subProfiles|
        invariant 0 <= i <= |subProfiles|
        invariant FindSub(subProfiles, subName, subType) == i + FindSub(subProfiles[i..], subName, subType)
      {
        if subProfiles[i].name == subName && (subType == "" || subProfiles[i].ptype == subType) {
          return;
        }
        i := i + 1;
      }
    }

    // Fields whose name the target does not know yet are appended.
    method MergeFields(target: Tree, fields: seq<Field>) returns (t: Tree)
      ensures t == AddFields(target, fields)
    {
      t := target;
      for k := 0 to |fields|
        invariant AddFields(t, fields[k..]) == AddFields(target, fields)
      {
        if FindField(AllFields(t), fields[k].name).None? {
          t := t.(mergedFields := t.mergedFields + [fields[k]]);
        }
        assert fields[k..][1..] == fields[k + 1..];
      }
    }

    method MergeRoot(source: Tree)
      modifies this`subProfiles
      ensures subProfiles == MergeOne(old(subProfiles), source)
    {
      var i := FindSubProfile(source.name, source.ptype);
      if i == |subProfiles| {
        if source.ptype == "" {
          return;
        }
        subProfiles := subProfiles + [Bare(source.name, source.ptype).(merged := true)];
      }
      var target := subProfiles[i];
      target := target.(mergedKeys := Unite(target.mergedKeys, source.localKeys));
      target := target.(mergedKeys := Unite(target.mergedKeys, source.mergedKeys));
      target := MergeFields(target, AllFields(source));
      subProfiles := subProfiles[i := target];
    }

    // The whole tree of the source lands in this profile's own list.
    method Merge(source: Tree)
      modifies this`subProfiles
      ensures subProfiles == MergeAll(old(subProfiles), Flatten(source))
      decreases source
    {
      hide MergeOne;
      MergeRoot(source);
      ghost var rooted := subProfiles;
      for k := 0 to |source.subs|
        invariant subProfiles == MergeAll(rooted, FlattenAll(source.subs[..k]))
      {
        Merge(source.subs[k]);
        assert source.subs[..k + 1] == source.subs[..k] + [source.subs[k]];
        FlattenAllConcat(source.subs[..k], [source.subs[k]]);
        assert FlattenAll([source.subs[k]]) == Flatten(source.subs[k]);
        MergeAllConcat(rooted, FlattenAll(source.subs[..k]), Flatten(source.subs[k]));
      }
      assert source.subs[..|source.subs|] == source.subs;
      assert ([source] + FlattenAll(source.subs))[1..] == FlattenAll(source.subs);
    }
  }
}
