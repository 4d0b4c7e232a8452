/** The plug-in manager's list of loaded libraries, changed in place as Plugins.dfy says. */
module PluginManaging {
  import opened Wrappers
  import opened Plugins

  class PluginManager {
    const maps: PluginMaps
    var loadedDlls: seq<Dll>
    var next: nat
    ghost var held: multiset<Handle>

    ghost function View(): State reads this {
      State(loadedDlls, held, next)
    }

    constructor (maps: PluginMaps)
      ensures this.maps == maps && View() == NONE_LOADED && Sound(View())
    {
      this.maps := maps;
      loadedDlls, next, held := [], 0, multiset{};
    }

    method AddLoadedPlugin(path: string, kind: Kind, instance: nat)
      modifies this`loadedDlls
      ensures loadedDlls == old(loadedDlls) + [Dll(path, kind, instance, 1)]
    {
      loadedDlls := loadedDlls + [Dll(path, kind, instance, 1)];
    }

    method AcquireLoadedPlugin(path: string) returns (got: Option<Dll>)
      modifies this`loadedDlls
      ensures (loadedDlls, got) == Acquire(old(loadedDlls), path)
    {
      hide Acquire;
      got := None;
      AcquiresFirst(loadedDlls, path);
      for i := 0 to |loadedDlls|
        invariant loadedDlls == old(loadedDlls) && got.None?
        invariant forall j | 0 <= j < i :: loadedDlls[j].path != path
      {
        if loadedDlls[i].path == path {
          got := Some(loadedDlls[i]);
          loadedDlls := loadedDlls[i := loadedDlls[i].(count := loadedDlls[i].count + 1)];
          return;
        }
      }
    }

    method UnloadPlugin(path: string) returns (cleaned: Option<nat>)
      modifies this`loadedDlls
      ensures (loadedDlls, cleaned) == Unload(old(loadedDlls), path)
    {
      hide Unload;
      cleaned := None;
      ghost var was := loadedDlls;
      var i := 0;
      assert was[0..] == was && loadedDlls[..0] + Unload(was, path).0 == Unload(was, path).0;
      while i < |loadedDlls|
        invariant 0 <= i <= |loadedDlls| == |was|
        invariant loadedDlls[i..] == was[i..]
        invariant Unload(was, path).0 == loadedDlls[..i] + Unload(was[i..], path).0
        invariant Unload(was, path).1 == Unload(was[i..], path).1
      {
        var d := loadedDlls[i];
        UnloadStep(was[i..], path);
        assert was[i..][0] == d == loadedDlls[i..][0] && was[i..][1..] == was[i + 1..] == loadedDlls[i + 1..];
        if d.path == path && d.count == 1 {
          loadedDlls := loadedDlls[..i] + loadedDlls[i + 1..];
          cleaned := Some(d.instance);
          return;
        }
        ghost var before, rest := loadedDlls[..i], Unload(was[i + 1..], path).0;
        if d.path == path {
          loadedDlls := loadedDlls[i := d.(count := d.count - 1)];
        }
        assert loadedDlls[..i + 1] == before + [loadedDlls[i]];
        assert before + ([loadedDlls[i]] + rest) == loadedDlls[..i + 1] + rest;
        i := i + 1;
      }
      assert was[i..] == [] && loadedDlls[..i] + [] == loadedDlls;
      UnloadNothing(path);
    }

    // `loads` says whether the library can be loaded and makes a plug-in of the kind.
    method CreatePlugin(kind: Kind, name: string, loads: bool) returns (instance: Option<nat>)
      modifies this
      ensures (View(), instance) == Create(maps, old(View()), kind, name, loads)
      ensures old(Sound(View())) && PathsOfKind(maps) ==> Sound(View())
    {
      hide Acquire, Sound, PathsOfKind;
      if old(Sound(View())) && PathsOfKind(maps) && (kind, name) in maps {
        CreateKeepsSound(maps, View(), kind, name, loads);
      }
      if (kind, name) !in maps {
        return None;
      }
      var path := maps[(kind, name)];
      var got := AcquireLoadedPlugin(path);
      if got.Some? && got.value.kind == kind {
        held := held + multiset{Handle(path, got.value.instance)};
        return Some(got.value.instance);
      }
      if !loads {
        return None;
      }
      instance := Some(next);
      next := next + 1;
      AddLoadedPlugin(path, kind, instance.value);
      held := held + multiset{Handle(path, instance.value)};
    }

    method DestroyPlugin(kind: Kind, name: string, instance: nat) returns (cleaned: Option<nat>)
      modifies this
      ensures (View(), cleaned) == Destroy(maps, old(View()), kind, name, instance)
      ensures old(Sound(View())) && Matched(maps, old(View()), Destroys(kind, name, instance)) ==> Sound(View())
    {
      hide Unload, Sound;
      if old(Sound(View())) && Matched(maps, View(), Destroys(kind, name, instance)) {
        DestroyKeepsSound(maps, View(), kind, name, instance);
      }
      if (kind, name) !in maps {
        return None;
      }
      var path := maps[(kind, name)];
      cleaned := UnloadPlugin(path);
      held := held - multiset{Handle(path, instance)};
    }
  }
}
