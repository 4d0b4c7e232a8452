/** The profile manager's own loops and tables. */
module ProfileManaging {
  import opened Wrappers
  import opened Profiles
  import opened ProfileObjects
  import opened Composition
  import opened Retries

  lemma MergeNothing(subs: seq<Tree>)
    ensures MergeAll(subs, []) == subs
  {}

  lemma NothingLeft(store: Store, subs: seq<Tree>)
    ensures Process(store, subs, |subs|) == subs
  {}

  class ProfileManager {
    const store: Store
    var syncRetriesInfo: RetriesInfo

    constructor (store: Store)
      ensures this.store == store && syncRetriesInfo == map[]
    {
      this.store := store;
      syncRetriesInfo := map[];
    }

    method LoadSub(p: Profile, i: nat)
      requires i < |p.subProfiles|
      modifies p`subProfiles
      ensures p.subProfiles == LoadOne(store, old(p.subProfiles), i)
    {
      hide Flatten, MergeAll;
      var sub := p.subProfiles[i];
      assert MergeAll(p.subProfiles, []) == p.subProfiles by { MergeNothing(p.subProfiles); }
      if PairOf(sub) in store {
        ghost var sources := Flatten(store[PairOf(sub)]);
        MergeAllGrows(p.subProfiles, sources);
        p.Merge(store[PairOf(sub)]);
      }
      p.SetSubLoaded(i);
    }

    // Goes over the list as it was, then over the list it has become, until that adds nothing.
    method Expand(p: Profile)
      modifies p
      ensures p.View() == Expanded(store, old(p.View()))
    {
      hide Process, LoadOne, PairsOf, New, Same;
      if p.loaded {
        return;
      }
      ghost var goal := Process(store, p.subProfiles, 0);
      ghost var was := p.View();
      var prevSubCount := 0;
      var subCount := |p.subProfiles|;
      while subCount > prevSubCount
        invariant 0 <= prevSubCount <= subCount == |p.subProfiles|
        invariant forall j | 0 <= j < prevSubCount :: p.subProfiles[j].loaded
        invariant Process(store, p.subProfiles, 0) == goal
        invariant p.View() == was.(subs := p.subProfiles)
        decreases |goal| - prevSubCount
      {
        ProcessGrows(store, p.subProfiles, 0);
        OnePass(p, subCount);
        SkipLoaded(store, p.subProfiles, 0, subCount);
        ProcessGrows(store, p.subProfiles, 0);
        prevSubCount := subCount;
        subCount := |p.subProfiles|;
      }
      SkipLoaded(store, p.subProfiles, 0, subCount);
      NothingLeft(store, p.subProfiles);
      p.SetLoaded(true);
    }

    method OnePass(p: Profile, n: nat)
      requires n <= |p.subProfiles|
      modifies p`subProfiles
      ensures n <= |p.subProfiles| && forall j | 0 <= j < n :: p.subProfiles[j].loaded
      ensures Process(store, p.subProfiles, n) == old(Process(store, p.subProfiles, 0))
    {
      hide LoadOne, PairsOf, New, Same;
      for i := 0 to n
        invariant n <= |p.subProfiles|
        invariant forall j | 0 <= j < i :: p.subProfiles[j].loaded
        invariant Process(store, p.subProfiles, i) == old(Process(store, p.subProfiles, 0))
      {
        if !p.subProfiles[i].loaded {
          LoadOneGrows(store, p.subProfiles, i);
          LoadSub(p, i);
        }
      }
    }

    method AddRetriesInfo(name: string, intervals: seq<nat>)
      modifies this
      ensures syncRetriesInfo == Add(old(syncRetriesInfo), name, intervals)
    {
      if intervals != [] && name !in syncRetriesInfo {
        syncRetriesInfo := syncRetriesInfo[name := intervals];
      }
    }

    method GetNextRetryInterval(name: string) returns (delay: Option<nat>)
      modifies this
      ensures (syncRetriesInfo, delay) == Next(old(syncRetriesInfo), name)
    {
      delay := None;
      if name in syncRetriesInfo && syncRetriesInfo[name] != [] {
        var mins := syncRetriesInfo[name][0];
        syncRetriesInfo := syncRetriesInfo[name := syncRetriesInfo[name][1..]];
        delay := Some(mins * 60 % UINT32);
      }
    }

    method RetriesDone(name: string)
      modifies this
      ensures syncRetriesInfo == Done(old(syncRetriesInfo), name)
    {
      if name in syncRetriesInfo {
        syncRetriesInfo := syncRetriesInfo - {name};
      }
    }

    // The part of the finish slot that deals with retries.
    method OnSessionFinished(name: string, outcome: Outcome) returns (scheduled: Option<nat>)
      modifies this
      ensures (syncRetriesInfo, scheduled) == Finish(old(syncRetriesInfo), name, outcome)
    {
      scheduled := None;
      match outcome {
        case Succeeded =>
          RetriesDone(name);
        case OtherEnd =>
        case Failed(schedulerUp) =>
          var next := GetNextRetryInterval(name);
          if next.Some? {
            if schedulerUp {
              scheduled := next;
            }
          } else {
            RetriesDone(name);
          }
      }
    }
  }
}
