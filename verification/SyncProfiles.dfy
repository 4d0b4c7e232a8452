/** What the scheduler sees of a loaded sync profile: its name, its client sub-profile and its
    storage sub-profiles, from which the list of storage back-ends is recomputed on every use. */
module SyncProfiles {
  import opened Wrappers

  // `backend` is the storage's back-end key, or its name where the profile sets no such key.
  datatype Storage = Storage(name: string, backend: string, enabled: bool)

  datatype SyncProfile = SyncProfile(
    name: string,
    client: Option<string>,
    storages: seq<Storage>,
    enabled: bool,
    valid: bool,
    online: bool)

  function Names(ss: seq<Storage>): seq<string> {
    if ss == [] then [] else [ss[0].name] + Names(ss[1..])
  }

  // Looking a storage up by name finds the first one of that name.
  function SubProfile(ss: seq<Storage>, name: string): Option<Storage> {
    if ss == [] then None
    else if ss[0].name == name then Some(ss[0])
    else SubProfile(ss[1..], name)
  }

  function EnabledBackends(ss: seq<Storage>, names: seq<string>): seq<string> {
    if names == [] then [] else
      var p := SubProfile(ss, names[0]);
      (if p.Some? && p.value.enabled then [p.value.backend] else []) + EnabledBackends(ss, names[1..])
  }

  function BackendNames(ss: seq<Storage>): seq<string> {
    EnabledBackends(ss, Names(ss))
  }

  // The storage that its name finds.
  ghost predicate IsFirst(ss: seq<Storage>, i: int) {
    0 <= i < |ss| && forall j | 0 <= j < i :: ss[j].name != ss[i].name
  }

  // The back-ends of the enabled ones, in order.
  ghost function OwnBackends(ss: seq<Storage>): seq<string> {
    if ss == [] then [] else (if ss[0].enabled then [ss[0].backend] else []) + OwnBackends(ss[1..])
  }

  lemma {:induction false} SubProfileIsFirst(ss: seq<Storage>, i: int)
    requires IsFirst(ss, i)
    ensures SubProfile(ss, ss[i].name) == Some(ss[i])
  {
    if i > 0 {
      assert forall j | 0 <= j < i - 1 :: ss[1..][j] == ss[j + 1];
      SubProfileIsFirst(ss[1..], i - 1);
    }
  }

  lemma {:induction false} FirstOf(ss: seq<Storage>, k: int) returns (i: int)
    requires 0 <= k < |ss|
    ensures i <= k && IsFirst(ss, i) && ss[i].name == ss[k].name
  {
    i := 0;
    while ss[i].name != ss[k].name
      invariant 0 <= i <= k && forall j | 0 <= j < i :: ss[j].name != ss[k].name
      decreases k - i
    {
      i := i + 1;
    }
  }

  lemma {:induction false} NamesAre(ss: seq<Storage>)
    ensures |Names(ss)| == |ss| && forall k | 0 <= k < |ss| :: Names(ss)[k] == ss[k].name
  {
    if ss != [] { NamesAre(ss[1..]); }
  }

  lemma {:induction false} EnabledAre(ss: seq<Storage>, names: seq<string>, rs: seq<Storage>)
    requires |rs| == |names| && forall k | 0 <= k < |names| :: SubProfile(ss, names[k]) == Some(rs[k])
    ensures EnabledBackends(ss, names) == OwnBackends(rs)
  {
    if names != [] {
      EnabledAre(ss, names[1..], rs[1..]);
    }
  }

  // `r` is what looking the name of entry `k` up finds.
  ghost predicate Decides(ss: seq<Storage>, k: int, r: Storage)
    requires 0 <= k < |ss|
  {
    exists i :: IsFirst(ss, i) && ss[i].name == ss[k].name && r == ss[i]
  }

  // Which back-ends a profile's sync uses. With each storage replaced by the first of its name, which
  // decides, it is the back-end of each enabled one, in order.
  lemma BackendsAre(ss: seq<Storage>, rs: seq<Storage>)
    requires |rs| == |ss|
    requires forall k | 0 <= k < |ss| :: Decides(ss, k, rs[k])
    ensures BackendNames(ss) == OwnBackends(rs)
  {
    NamesAre(ss);
    forall k | 0 <= k < |ss| ensures SubProfile(ss, Names(ss)[k]) == Some(rs[k]) {
      var i :| IsFirst(ss, i) && ss[i].name == ss[k].name && rs[k] == ss[i];
      SubProfileIsFirst(ss, i);
    }
    EnabledAre(ss, Names(ss), rs);
  }

  // Without repeated names each enabled storage adds its own.
  lemma BackendsOfDistinct(ss: seq<Storage>)
    requires forall i, j | 0 <= i < j < |ss| :: ss[i].name != ss[j].name
    ensures BackendNames(ss) == OwnBackends(ss)
  {
    forall k | 0 <= k < |ss| ensures Decides(ss, k, ss[k]) {
      assert IsFirst(ss, k);
    }
    BackendsAre(ss, ss);
  }

  ghost predicate Lists(ss: seq<Storage>, n: string, b: string) {
    SubProfile(ss, n).Some? && SubProfile(ss, n).value.enabled && SubProfile(ss, n).value.backend == b
  }

  lemma {:induction false} EnabledMembers(ss: seq<Storage>, names: seq<string>, b: string)
    ensures b in EnabledBackends(ss, names) <==> exists n | n in names :: Lists(ss, n, b)
  {
    if names != [] {
      EnabledMembers(ss, names[1..], b);
      assert names == [names[0]] + names[1..];
      assert Lists(ss, names[0], b) <==>
             SubProfile(ss, names[0]).Some? && SubProfile(ss, names[0]).value.enabled
             && SubProfile(ss, names[0]).value.backend == b;
    }
  }

  // A back-end is used exactly if it is that of an enabled storage which is the first of its name.
  lemma UsedBackends(ss: seq<Storage>, b: string)
    ensures b in BackendNames(ss) <==> exists i | IsFirst(ss, i) :: ss[i].enabled && ss[i].backend == b
  {
    NamesAre(ss);
    EnabledMembers(ss, Names(ss), b);
    if b in BackendNames(ss) {
      var n :| n in Names(ss) && Lists(ss, n, b);
      var k :| 0 <= k < |ss| && Names(ss)[k] == n;
      var i := FirstOf(ss, k);
      SubProfileIsFirst(ss, i);
      assert IsFirst(ss, i) && ss[i].enabled && ss[i].backend == b;
    }
    if i :| IsFirst(ss, i) && ss[i].enabled && ss[i].backend == b {
      SubProfileIsFirst(ss, i);
      assert Names(ss)[i] in Names(ss) && Lists(ss, ss[i].name, b);
    }
  }

  // Every storage the plug-in acquired during the session is switched on in the profile; of two
  // storages of one name only the first is found.
  function EnableStorages(ss: seq<Storage>, acquired: set<string>): seq<Storage> {
    if ss == [] then [] else
      [if ss[0].name in acquired then ss[0].(enabled := true) else ss[0]]
      + EnableStorages(ss[1..], acquired - {ss[0].name})
  }

  // Each acquired storage that the profile knows was switched on already.
  ghost predicate NothingNewAcquired(ss: seq<Storage>, acquired: set<string>) {
    forall n | n in acquired :: SubProfile(ss, n).Some? ==> SubProfile(ss, n).value.enabled
  }

  lemma {:induction false} EnabledStorage(ss: seq<Storage>, acquired: set<string>, n: string)
    ensures Names(EnableStorages(ss, acquired)) == Names(ss)
    ensures SubProfile(EnableStorages(ss, acquired), n)
         == var p := SubProfile(ss, n);
            if n in acquired && p.Some? then Some(p.value.(enabled := true)) else p
  {
    if ss != [] {
      var on := EnableStorages(ss, acquired);
      assert on[1..] == EnableStorages(ss[1..], acquired - {ss[0].name});
      EnabledStorage(ss[1..], acquired - {ss[0].name}, n);
    }
  }

  lemma {:induction false} EnabledLength(ss: seq<Storage>, acquired: set<string>)
    ensures |EnableStorages(ss, acquired)| == |ss|
  {
    if ss != [] { EnabledLength(ss[1..], acquired - {ss[0].name}); }
  }

  // Of each name the first storage is switched on if it was acquired, and no other storage changes.
  lemma {:induction false} EnabledAt(ss: seq<Storage>, acquired: set<string>, i: nat)
    requires i < |ss|
    ensures var on := EnableStorages(ss, acquired);
            && |on| == |ss|
            && on[i] == if IsFirst(ss, i) && ss[i].name in acquired then ss[i].(enabled := true) else ss[i]
  {
    EnabledLength(ss, acquired);
    if i > 0 {
      var rest, left := ss[1..], acquired - {ss[0].name};
      EnabledAt(rest, left, i - 1);
      assert EnableStorages(ss, acquired)[i] == EnableStorages(rest, left)[i - 1];
      assert forall j | 0 <= j < |rest| :: rest[j] == ss[j + 1];
      assert IsFirst(ss, i) <==> IsFirst(rest, i - 1) && ss[0].name != ss[i].name;
    }
  }

  lemma {:induction false} NameKnown(ss: seq<Storage>, n: string)
    ensures n in Names(ss) <==> SubProfile(ss, n).Some?
  {
    if ss != [] { NameKnown(ss[1..], n); }
  }

  lemma {:induction false} EnablingAddsBackends(ss: seq<Storage>, acquired: set<string>, names: seq<string>, n: string)
    ensures var on := EnableStorages(ss, acquired);
            && |EnabledBackends(on, names)| >= |EnabledBackends(ss, names)|
            && (n in names && n in acquired && SubProfile(ss, n).Some? && !SubProfile(ss, n).value.enabled
                ==> |EnabledBackends(on, names)| > |EnabledBackends(ss, names)|)
  {
    if names != [] {
      EnabledStorage(ss, acquired, names[0]);
      EnablingAddsBackends(ss, acquired, names[1..], n);
    }
  }

  lemma {:induction false} EnablingNothing(ss: seq<Storage>, acquired: set<string>, names: seq<string>)
    requires NothingNewAcquired(ss, acquired)
    ensures EnabledBackends(EnableStorages(ss, acquired), names) == EnabledBackends(ss, names)
  {
    if names != [] {
      EnabledStorage(ss, acquired, names[0]);
      EnablingNothing(ss, acquired, names[1..]);
    }
  }

  // The list released after a successful sync is the list that was reserved exactly when the sync
  // switched no storage on.
  lemma BackendsSurviveEnabling(ss: seq<Storage>, acquired: set<string>)
    ensures BackendNames(EnableStorages(ss, acquired)) == BackendNames(ss) <==> NothingNewAcquired(ss, acquired)
  {
    EnabledStorage(ss, acquired, "");
    if NothingNewAcquired(ss, acquired) {
      EnablingNothing(ss, acquired, Names(ss));
    } else {
      var n :| n in acquired && SubProfile(ss, n).Some? && !SubProfile(ss, n).value.enabled;
      NameKnown(ss, n);
      EnablingAddsBackends(ss, acquired, Names(ss), n);
    }
  }
}
