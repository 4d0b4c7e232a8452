/** Plug-in libraries in the daemon's own process, loaded once and counted. */
module Plugins {
  import opened Wrappers

  datatype Kind = Notifier | Storage | Client | Server

  // What the library's file name ends with.
  function Suffix(k: Kind): string {
    match k
    case Notifier => "-changenotifier.so"
    case Storage => "-storage.so"
    case Client => "-client.so"
    case Server => "-server.so"
  }

  predicate EndsWith(s: string, t: string) {
    |s| >= |t| && s[|s| - |t|..] == t
  }

  // The library of each plug-in name, by kind.
  type PluginMaps = map<(Kind, string), string>

  // "lib" and the suffix are cut off; a later file of the same plug-in name wins.
  function LoadMap(dir: string, k: Kind, files: seq<string>): map<string, string> {
    if files == [] then map[]
    else
      var m, f := LoadMap(dir, k, files[..|files| - 1]), files[|files| - 1];
      if !EndsWith(f, Suffix(k)) then m
      else
        var stem := f[..|f| - |Suffix(k)|];
        m[(if |stem| < 3 then "" else stem[3..]) := dir + f]
  }

  ghost predicate PathsOfKind(maps: PluginMaps) {
    forall k, n | (k, n) in maps :: EndsWith(maps[(k, n)], Suffix(k))
  }

  lemma {:induction false} LoadedPathsHaveSuffix(dir: string, k: Kind, files: seq<string>)
    ensures forall n | n in LoadMap(dir, k, files) :: EndsWith(LoadMap(dir, k, files)[n], Suffix(k))
  {
    if files != [] {
      LoadedPathsHaveSuffix(dir, k, files[..|files| - 1]);
      var f := files[|files| - 1];
      if EndsWith(f, Suffix(k)) {
        assert (dir + f)[|dir + f| - |Suffix(k)|..] == f[|f| - |Suffix(k)|..];
      }
    }
  }

  // The file is the library of the plug-in name: three letters, the name, and what the kind ends with.
  ghost predicate Provides(k: Kind, f: string, n: string) {
    var ending := match k
      case Notifier => "-changenotifier.so"
      case Storage => "-storage.so"
      case Client => "-client.so"
      case Server => "-server.so";
    exists stem: string :: f == stem + ending && n == if |stem| < 3 then "" else stem[3..]
  }

  lemma ProvidesIff(k: Kind, f: string, n: string)
    ensures Provides(k, f, n) <==>
            EndsWith(f, Suffix(k)) && n == var stem := f[..|f| - |Suffix(k)|]; if |stem| < 3 then "" else stem[3..]
  {
    if EndsWith(f, Suffix(k)) {
      assert f == f[..|f| - |Suffix(k)|] + Suffix(k);
    }
  }

  /** A plug-in name has a library exactly if some file provides it, and then it is the last such file,
      in that directory. */
  lemma {:induction false} LoadMapOutcome(dir: string, k: Kind, files: seq<string>, n: string)
    ensures var m := LoadMap(dir, k, files);
            && (n in m <==> exists i | 0 <= i < |files| :: Provides(k, files[i], n))
            && (n in m ==> exists i | 0 <= i < |files| ::
                  Provides(k, files[i], n) && m[n] == dir + files[i]
                  && forall j | i < j < |files| :: !Provides(k, files[j], n))
  {
    hide Provides, EndsWith, Suffix;
    if files != [] {
      var before, f := files[..|files| - 1], files[|files| - 1];
      LoadMapOutcome(dir, k, before, n);
      ProvidesIff(k, f, n);
      assert forall i | 0 <= i < |before| :: before[i] == files[i];
      var m := LoadMap(dir, k, files);
      if Provides(k, f, n) {
        assert m[n] == dir + f;
        assert Provides(k, files[|files| - 1], n);
      } else if n in m {
        var i :| 0 <= i < |before| && Provides(k, before[i], n) && LoadMap(dir, k, before)[n] == dir + before[i]
                 && forall j | i < j < |before| :: !Provides(k, before[j], n);
        assert Provides(k, files[i], n) && m[n] == dir + files[i];
      }
    }
  }

  lemma CharFromEnd(s: string, t: string, k: nat)
    requires EndsWith(s, t) && 0 < k <= |t|
    ensures s[|s| - k] == t[|t| - k]
  {
    assert s[|s| - |t|..][|t| - k] == s[|s| - k];
  }

  lemma SuffixTellsKind(path: string, a: Kind, b: Kind)
    requires EndsWith(path, Suffix(a)) && EndsWith(path, Suffix(b))
    ensures a == b
  {
    CharFromEnd(path, Suffix(a), 4);
    CharFromEnd(path, Suffix(b), 4);
    CharFromEnd(path, Suffix(a), 6);
    CharFromEnd(path, Suffix(b), 6);
  }

  datatype Dll = Dll(path: string, kind: Kind, instance: nat, count: int)

  // What a caller got and has not given back.
  datatype Handle = Handle(path: string, instance: nat)

  datatype State = State(dlls: seq<Dll>, held: multiset<Handle>, next: nat)

  // The first entry of the path is counted up and gives its object.
  function Acquire(dlls: seq<Dll>, path: string): (seq<Dll>, Option<Dll>) {
    if dlls == [] then ([], None)
    else if dlls[0].path == path then ([dlls[0].(count := dlls[0].count + 1)] + dlls[1..], Some(dlls[0]))
    else
      var (rest, got) := Acquire(dlls[1..], path);
      ([dlls[0]] + rest, got)
  }

  // Entries of the path are counted down until one reaches zero; that one goes.
  function Unload(dlls: seq<Dll>, path: string): (seq<Dll>, Option<nat>) {
    if dlls == [] then ([], None)
    else if dlls[0].path == path && dlls[0].count == 1 then (dlls[1..], Some(dlls[0].instance))
    else
      var first := if dlls[0].path == path then dlls[0].(count := dlls[0].count - 1) else dlls[0];
      var (rest, cleaned) := Unload(dlls[1..], path);
      ([first] + rest, cleaned)
  }

  // A counted entry of another kind is no use to the caller but stays counted up.
  function Create(maps: PluginMaps, st: State, kind: Kind, name: string, loads: bool): (State, Option<nat>) {
    if (kind, name) !in maps then (st, None)
    else
      var path := maps[(kind, name)];
      var (dlls, got) := Acquire(st.dlls, path);
      if got.Some? && got.value.kind == kind then
        (st.(dlls := dlls, held := st.held + multiset{Handle(path, got.value.instance)}), Some(got.value.instance))
      else if loads then
        (State(dlls + [Dll(path, kind, st.next, 1)], st.held + multiset{Handle(path, st.next)}, st.next + 1),
         Some(st.next))
      else (st.(dlls := dlls), None)
  }

  // The object is cleaned up if it is returned here.
  function Destroy(maps: PluginMaps, st: State, kind: Kind, name: string, instance: nat): (State, Option<nat>) {
    if (kind, name) !in maps then (st, None)
    else
      var path := maps[(kind, name)];
      var (dlls, cleaned) := Unload(st.dlls, path);
      (st.(dlls := dlls, held := st.held - multiset{Handle(path, instance)}), cleaned)
  }

  datatype Event =
    | Creates(kind: Kind, name: string, loads: bool)
    | Destroys(kind: Kind, name: string, instance: nat)

  // Callers give back what they got.
  ghost predicate Matched(maps: PluginMaps, st: State, e: Event) {
    e.Destroys? ==> (e.kind, e.name) in maps && Handle(maps[(e.kind, e.name)], e.instance) in st.held
  }

  function Step(maps: PluginMaps, st: State, e: Event): State {
    match e
    case Creates(kind, name, loads) => Create(maps, st, kind, name, loads).0
    case Destroys(kind, name, instance) => Destroy(maps, st, kind, name, instance).0
  }

  const NONE_LOADED := State([], multiset{}, 0)

  function HandleOf(d: Dll): Handle {
    Handle(d.path, d.instance)
  }

  ghost predicate OnePerPath(dlls: seq<Dll>) {
    forall i, j | 0 <= i < j < |dlls| :: dlls[i].path != dlls[j].path
  }

  ghost predicate Counts(d: Dll, held: multiset<Handle>) {
    EndsWith(d.path, Suffix(d.kind)) && 1 <= d.count == held[HandleOf(d)]
  }

  ghost predicate Loaded(dlls: seq<Dll>, h: Handle) {
    exists i | 0 <= i < |dlls| :: HandleOf(dlls[i]) == h
  }

  /** One entry a library, counting exactly what callers hold; all they hold of a library is its one
      instance. */
  ghost predicate Sound(st: State) {
    && OnePerPath(st.dlls)
    && (forall i | 0 <= i < |st.dlls| :: Counts(st.dlls[i], st.held))
    && (forall h | h in st.held :: Loaded(st.dlls, h))
  }

  function Find(dlls: seq<Dll>, path: string): (i: nat)
    ensures i <= |dlls| && (i < |dlls| ==> dlls[i].path == path)
    ensures forall j | 0 <= j < i :: dlls[j].path != path
  {
    if dlls == [] || dlls[0].path == path then 0 else 1 + Find(dlls[1..], path)
  }

  lemma {:induction false} AcquiresFirst(dlls: seq<Dll>, path: string)
    ensures var i := Find(dlls, path);
            Acquire(dlls, path) ==
            if i < |dlls| then (dlls[i := dlls[i].(count := dlls[i].count + 1)], Some(dlls[i])) else (dlls, None)
  {
    if dlls == [] {
    } else if dlls[0].path == path {
      var d := dlls[0].(count := dlls[0].count + 1);
      assert dlls[0 := d] == [d] + dlls[1..];
    } else {
      AcquiresFirst(dlls[1..], path);
      var i := Find(dlls[1..], path);
      assert dlls == [dlls[0]] + dlls[1..];
      if i < |dlls| - 1 {
        var d := dlls[1..][i].(count := dlls[1..][i].count + 1);
        assert dlls[1 + i := d] == [dlls[0]] + dlls[1..][i := d];
      }
    }
  }

  lemma {:induction false} UnloadsOthersNot(dlls: seq<Dll>, path: string)
    requires forall j | 0 <= j < |dlls| :: dlls[j].path != path
    ensures Unload(dlls, path) == (dlls, None)
  {
    if dlls != [] {
      UnloadsOthersNot(dlls[1..], path);
      assert dlls == [dlls[0]] + dlls[1..];
    }
  }

  lemma UnloadStep(dlls: seq<Dll>, path: string)
    requires dlls != []
    ensures Unload(dlls, path) ==
            if dlls[0].path == path && dlls[0].count == 1 then (dlls[1..], Some(dlls[0].instance))
            else
              var first := if dlls[0].path == path then dlls[0].(count := dlls[0].count - 1) else dlls[0];
              ([first] + Unload(dlls[1..], path).0, Unload(dlls[1..], path).1)
  {}

  lemma FindStep(dlls: seq<Dll>, path: string)
    requires dlls != []
    ensures Find(dlls, path) == if dlls[0].path == path then 0 else 1 + Find(dlls[1..], path)
  {}

  lemma OnePerPathTail(dlls: seq<Dll>)
    requires dlls != [] && OnePerPath(dlls)
    ensures OnePerPath(dlls[1..]) && forall j | 0 <= j < |dlls[1..]| :: dlls[1..][j].path != dlls[0].path
  {}

  lemma ConsCut(first: Dll, rest: seq<Dll>, i: nat, d: Dll)
    requires i < |rest|
    ensures var all := [first] + rest;
            && all[1 + i] == rest[i]
            && all[1 + i := d] == [first] + rest[i := d]
            && all[..1 + i] + all[1 + i + 1..] == [first] + (rest[..i] + rest[i + 1..])
  {}

  lemma {:induction false} UnloadsOnly(dlls: seq<Dll>, path: string)
    requires OnePerPath(dlls) && Find(dlls, path) < |dlls|
    ensures var i := Find(dlls, path);
            Unload(dlls, path) ==
            if dlls[i].count == 1 then (dlls[..i] + dlls[i + 1..], Some(dlls[i].instance))
            else (dlls[i := dlls[i].(count := dlls[i].count - 1)], None)
  {
    hide OnePerPath, Find, Unload;
    UnloadStep(dlls, path);
    var rest := dlls[1..];
    OnePerPathTail(dlls);
    FindStep(dlls, path);
    if dlls[0].path == path {
      UnloadsOthersNot(rest, path);
      var d := dlls[0].(count := dlls[0].count - 1);
      assert dlls[0 := d] == [d] + rest;
      assert dlls[..0] + dlls[1..] == rest;
    } else {
      UnloadsOnly(rest, path);
      var i := Find(rest, path);
      var d := rest[i].(count := rest[i].count - 1);
      ConsCut(dlls[0], rest, i, d);
      assert dlls == [dlls[0]] + rest;
    }
  }

  lemma UnloadNothing(path: string)
    ensures Unload([], path) == ([], None)
  {}

  // Handles of other entries are other handles.
  lemma OtherHandles(st: State, i: nat, j: nat)
    requires Sound(st) && i < |st.dlls| && j < |st.dlls| && i != j
    ensures HandleOf(st.dlls[i]) != HandleOf(st.dlls[j])
  {
    hide Counts, Loaded;
    var a, b := if i < j then i else j, if i < j then j else i;
    assert st.dlls[a].path != st.dlls[b].path;
  }

  lemma StillLoaded(dlls: seq<Dll>, i: nat, d: Dll, h: Handle)
    requires i < |dlls| && HandleOf(d) == HandleOf(dlls[i]) && Loaded(dlls, h)
    ensures Loaded(dlls[i := d], h)
  {
    var j :| 0 <= j < |dlls| && HandleOf(dlls[j]) == h;
    assert HandleOf(dlls[i := d][j]) == h;
  }

  // The count of one entry moves together with what is held of it.
  lemma Recounted(st: State, i: nat, d: Dll, held: multiset<Handle>)
    requires Sound(st) && i < |st.dlls| && d == st.dlls[i].(count := d.count) && 1 <= d.count
    requires held == st.held[HandleOf(d) := d.count]
    ensures Sound(st.(dlls := st.dlls[i := d], held := held))
  {
    hide Loaded;
    var now := st.(dlls := st.dlls[i := d], held := held);
    forall j | 0 <= j < |now.dlls| ensures Counts(now.dlls[j], held) {
      assert Counts(st.dlls[j], st.held);
      if j != i {
        OtherHandles(st, i, j);
      }
    }
    forall h | h in held ensures Loaded(now.dlls, h) {
      assert h in st.held by {
        assert Counts(st.dlls[i], st.held);
      }
      StillLoaded(st.dlls, i, d, h);
    }
  }

  lemma PlaceOf(dlls: seq<Dll>, h: Handle) returns (i: nat)
    requires Loaded(dlls, h)
    ensures i < |dlls| && HandleOf(dlls[i]) == h
  {
    i :| 0 <= i < |dlls| && HandleOf(dlls[i]) == h;
  }

  lemma IsLoaded(dlls: seq<Dll>, i: nat)
    requires i < |dlls|
    ensures Loaded(dlls, HandleOf(dlls[i]))
  {}

  lemma OneMore(st: State, d: Dll)
    requires Sound(st) && d.count == 1 && EndsWith(d.path, Suffix(d.kind))
    requires forall j | 0 <= j < |st.dlls| :: st.dlls[j].path != d.path
    ensures Sound(State(st.dlls + [d], st.held + multiset{HandleOf(d)}, st.next + 1))
  {
    hide EndsWith, Loaded;
    var now := State(st.dlls + [d], st.held + multiset{HandleOf(d)}, st.next + 1);
    assert HandleOf(d) !in st.held by {
      if HandleOf(d) in st.held {
        var j := PlaceOf(st.dlls, HandleOf(d));
      }
    }
    forall j | 0 <= j < |now.dlls| ensures Counts(now.dlls[j], now.held) {
      if j < |st.dlls| {
        assert Counts(st.dlls[j], st.held) && now.dlls[j] == st.dlls[j];
      }
    }
    forall h | h in now.held ensures Loaded(now.dlls, h) {
      if h == HandleOf(d) {
        IsLoaded(now.dlls, |st.dlls|);
      } else {
        var j := PlaceOf(st.dlls, h);
        IsLoaded(now.dlls, j);
      }
    }
  }

  lemma CreateKeepsSound(maps: PluginMaps, st: State, kind: Kind, name: string, loads: bool)
    requires Sound(st) && PathsOfKind(maps) && (kind, name) in maps
    ensures Sound(Create(maps, st, kind, name, loads).0)
    ensures var path := maps[(kind, name)];
            var i := Find(st.dlls, path);
            Create(maps, st, kind, name, loads).1 ==
            if i < |st.dlls| then Some(st.dlls[i].instance) else if loads then Some(st.next) else None
  {
    hide Acquire, EndsWith, Loaded;
    var path := maps[(kind, name)];
    var i := Find(st.dlls, path);
    AcquiresFirst(st.dlls, path);
    assert EndsWith(path, Suffix(kind));
    if i < |st.dlls| {
      var d := st.dlls[i];
      assert Counts(d, st.held);
      SuffixTellsKind(path, kind, d.kind);
      Recounted(st, i, d.(count := d.count + 1), st.held + multiset{HandleOf(d)});
    } else if loads {
      OneMore(st, Dll(path, kind, st.next, 1));
    }
  }

  /** Creation, whatever is loaded: the object of the first entry of the path if that is of the kind,
      and else a new one if the library can be loaded. The first entry is counted up in any case. */
  lemma CreateOutcome(maps: PluginMaps, st: State, kind: Kind, name: string, loads: bool, i: nat)
    requires (kind, name) in maps && i <= |st.dlls|
    requires forall j | 0 <= j < i :: st.dlls[j].path != maps[(kind, name)]
    requires i < |st.dlls| ==> st.dlls[i].path == maps[(kind, name)]
    ensures var (st1, got) := Create(maps, st, kind, name, loads);
            var path := maps[(kind, name)];
            var usable := i < |st.dlls| && st.dlls[i].kind == kind;
            && got == (if usable then Some(st.dlls[i].instance) else if loads then Some(st.next) else None)
            && st1.dlls == (if i < |st.dlls| then st.dlls[i := st.dlls[i].(count := st.dlls[i].count + 1)] else st.dlls)
                           + (if !usable && loads then [Dll(path, kind, st.next, 1)] else [])
  {
    hide Acquire;
    AcquiresFirst(st.dlls, maps[(kind, name)]);
    assert Find(st.dlls, maps[(kind, name)]) == i;
    assert forall dlls: seq<Dll> :: dlls + [] == dlls;
  }

  lemma OneLess(st: State, i: nat)
    requires Sound(st) && i < |st.dlls| && st.dlls[i].count == 1
    ensures var now := st.(dlls := st.dlls[..i] + st.dlls[i + 1..], held := st.held - multiset{HandleOf(st.dlls[i])});
            Sound(now) && forall h | h in now.held :: h.path != st.dlls[i].path
  {
    hide EndsWith, Loaded;
    var d := st.dlls[i];
    var now := st.(dlls := st.dlls[..i] + st.dlls[i + 1..], held := st.held - multiset{HandleOf(d)});
    assert Counts(d, st.held);
    forall j | 0 <= j < |now.dlls| ensures Counts(now.dlls[j], now.held) {
      var k := if j < i then j else j + 1;
      assert now.dlls[j] == st.dlls[k] && Counts(st.dlls[k], st.held);
      OtherHandles(st, i, k);
    }
    forall h | h in now.held ensures h.path != d.path && Loaded(now.dlls, h) {
      var k := PlaceOf(st.dlls, h);
      assert k != i;
      var j := if k < i then k else k - 1;
      assert now.dlls[j] == st.dlls[k];
      IsLoaded(now.dlls, j);
      assert st.dlls[k].path != d.path;
    }
  }

  /** The object is cleaned up exactly when nobody holds anything of its library any more. */
  lemma DestroyKeepsSound(maps: PluginMaps, st: State, kind: Kind, name: string, instance: nat)
    requires Sound(st) && (kind, name) in maps && Handle(maps[(kind, name)], instance) in st.held
    ensures var (now, cleaned) := Destroy(maps, st, kind, name, instance);
            && Sound(now)
            && cleaned == (if forall h | h in now.held :: h.path != maps[(kind, name)] then Some(instance) else None)
  {
    hide Unload, EndsWith, Loaded;
    var path := maps[(kind, name)];
    var h := Handle(path, instance);
    var k := PlaceOf(st.dlls, h);
    var i := Find(st.dlls, path);
    assert i == k;
    UnloadsOnly(st.dlls, path);
    var d := st.dlls[i];
    assert Counts(d, st.held);
    if d.count == 1 {
      OneLess(st, i);
    } else {
      Recounted(st, i, d.(count := d.count - 1), st.held - multiset{h});
      assert h in st.held - multiset{h};
    }
  }

  // Different libraries have different objects.
  ghost predicate ApartObjects(st: State) {
    && (forall i | 0 <= i < |st.dlls| :: st.dlls[i].instance < st.next)
    && (forall i, j | 0 <= i < j < |st.dlls| :: st.dlls[i].instance != st.dlls[j].instance)
  }

  lemma CreateKeepsApart(maps: PluginMaps, st: State, kind: Kind, name: string, loads: bool)
    requires ApartObjects(st) && (kind, name) in maps
    ensures ApartObjects(Create(maps, st, kind, name, loads).0)
  {
    hide Acquire;
    AcquiresFirst(st.dlls, maps[(kind, name)]);
  }

  lemma RecountedApart(st: State, i: nat, count: int)
    requires ApartObjects(st) && i < |st.dlls|
    ensures ApartObjects(st.(dlls := st.dlls[i := st.dlls[i].(count := count)]))
  {}

  lemma CutApart(st: State, i: nat)
    requires ApartObjects(st) && i < |st.dlls|
    ensures ApartObjects(st.(dlls := st.dlls[..i] + st.dlls[i + 1..]))
  {
    var dlls := st.dlls[..i] + st.dlls[i + 1..];
    assert forall j | 0 <= j < |dlls| :: dlls[j] == st.dlls[if j < i then j else j + 1];
  }

  lemma SameObjects(st: State, st1: State)
    requires st1.dlls == st.dlls && st1.next == st.next
    ensures ApartObjects(st1) <==> ApartObjects(st)
  {}

  lemma StepKeepsApart(maps: PluginMaps, st: State, e: Event)
    requires Sound(st) && ApartObjects(st) && Matched(maps, st, e)
    ensures ApartObjects(Step(maps, st, e))
  {
    hide Acquire, Unload, EndsWith, Counts, ApartObjects, Loaded;
    if (e.kind, e.name) in maps {
      var path := maps[(e.kind, e.name)];
      var i := Find(st.dlls, path);
      AcquiresFirst(st.dlls, path);
      if e.Creates? {
        CreateKeepsApart(maps, st, e.kind, e.name, e.loads);
      } else {
        var k := PlaceOf(st.dlls, Handle(path, e.instance));
        UnloadsOnly(st.dlls, path);
        CutApart(st, i);
        RecountedApart(st, i, st.dlls[i].count - 1);
        SameObjects(st.(dlls := Unload(st.dlls, path).0), Step(maps, st, e));
      }
    }
  }

  function After(maps: PluginMaps, run: seq<Event>): State {
    if run == [] then NONE_LOADED else Step(maps, After(maps, run[..|run| - 1]), run[|run| - 1])
  }

  ghost predicate AllMatched(maps: PluginMaps, run: seq<Event>) {
    run != [] ==>
      AllMatched(maps, run[..|run| - 1]) && Matched(maps, After(maps, run[..|run| - 1]), run[|run| - 1])
  }

  lemma NothingIsSound()
    ensures Sound(NONE_LOADED)
  {}

  /** Over every run of creations and matching destructions. */
  lemma {:induction false} RunsStaySound(maps: PluginMaps, run: seq<Event>)
    requires PathsOfKind(maps) && AllMatched(maps, run)
    ensures Sound(After(maps, run))
  {
    hide Sound;
    if run == [] {
      NothingIsSound();
    } else {
      var e := run[|run| - 1];
      var before := After(maps, run[..|run| - 1]);
      RunsStaySound(maps, run[..|run| - 1]);
      if (e.kind, e.name) in maps {
        if e.Creates? {
          CreateKeepsSound(maps, before, e.kind, e.name, e.loads);
        } else {
          DestroyKeepsSound(maps, before, e.kind, e.name, e.instance);
        }
      }
    }
  }

  lemma {:induction false} RunsStayApart(maps: PluginMaps, run: seq<Event>)
    requires PathsOfKind(maps) && AllMatched(maps, run)
    ensures ApartObjects(After(maps, run))
  {
    hide Sound, Step, Matched;
    if run != [] {
      RunsStaySound(maps, run[..|run| - 1]);
      RunsStayApart(maps, run[..|run| - 1]);
      StepKeepsApart(maps, After(maps, run[..|run| - 1]), run[|run| - 1]);
    }
  }

  /** Everybody holding something of a library holds the same object and nobody else holds it, and the
      library's one entry counts them. */
  lemma HoldersShareObject(maps: PluginMaps, run: seq<Event>, a: Handle, b: Handle)
    requires PathsOfKind(maps) && AllMatched(maps, run)
    requires a in After(maps, run).held && b in After(maps, run).held
    ensures a.path == b.path <==> a.instance == b.instance
    ensures var st := After(maps, run);
            exists i :: 0 <= i < |st.dlls| && HandleOf(st.dlls[i]) == a && st.dlls[i].count == st.held[a]
  {
    hide After, AllMatched, EndsWith, Loaded;
    RunsStaySound(maps, run);
    var st := After(maps, run);
    RunsStayApart(maps, run);
    var i := PlaceOf(st.dlls, a);
    var j := PlaceOf(st.dlls, b);
    assert a.path == b.path || a.instance == b.instance ==> i == j;
    assert Counts(st.dlls[i], st.held);
  }
}
