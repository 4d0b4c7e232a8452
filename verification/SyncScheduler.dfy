/** The scheduler and the activity tables it drives, changed in place as BackgroundSync.dfy says. */
module SyncScheduling {
  import opened Wrappers
  import opened Background

  // Statuses from this one on end a sync.
  const SYNC_ERROR := 3

  lemma NothingEnteredNothingLive(st: State)
    requires Sound(st) && st.syncs == map[] && st.switches == map[]
    ensures st.live == map[]
  {}

  class BackgroundSync {
    var scheduledSyncs: map<string, SyncEntry>
    var scheduledSwitch: map<string, SwitchEntry>
    var live: map<nat, Activity>
    var nextId: nat

    ghost function View(): State reads this {
      State(scheduledSyncs, scheduledSwitch, live, nextId)
    }

    constructor ()
      ensures View() == NO_ACTIVITY && Sound(View())
    {
      scheduledSyncs, scheduledSwitch, live, nextId := map[], map[], map[], 0;
    }

    method RemoveSwitch(name: string) returns (removed: bool)
      requires Sound(View())
      modifies this
      ensures Sound(View()) && View() == old(Background.RemoveSwitch(View(), name))
      ensures removed == (name in old(scheduledSwitch))
    {
      RemoveSwitchKeepsSound(View(), name);
      if name !in scheduledSwitch {
        return false;
      }
      live := live - {scheduledSwitch[name].id};
      scheduledSwitch := scheduledSwitch - {name};
      return true;
    }

    method Remove(name: string) returns (removed: bool)
      requires Sound(View())
      modifies this
      ensures Sound(View()) && View() == old(Background.Remove(View(), name))
      ensures removed == (name in old(scheduledSyncs))
    {
      hide Sound;
      RemoveKeepsSound(View(), name);
      var _ := RemoveSwitch(name);
      if name !in scheduledSyncs {
        return false;
      }
      live := live - {scheduledSyncs[name].id};
      scheduledSyncs := scheduledSyncs - {name};
      return true;
    }

    method Set(name: string, seconds: int, now: int) returns (ok: bool)
      requires Sound(View())
      modifies this
      ensures Sound(View()) && View() == old(Background.Set(View(), name, seconds, now)) && ok == (name != "")
    {
      hide Sound, FrequencyFromSeconds, WholeMinutes;
      if name == "" {
        return false;
      }
      SetDoes(View(), name, seconds, now);
      if name in scheduledSyncs {
        if WholeMinutes(seconds) > MAX_FREQUENCY {
          var _ := Remove(name);
        } else {
          EntriesAreLive(View());
          var entry := scheduledSyncs[name];
          var frequency := FrequencyFromSeconds(seconds);
          if entry.frequency != frequency {
            live := live[entry.id := Stopped];
            scheduledSyncs := scheduledSyncs[name := entry.(frequency := frequency)];
          }
          live := live[entry.id := Waiting(frequency)];
          assert live == old(live)[entry.id := Waiting(frequency)];
          assert scheduledSyncs == old(scheduledSyncs)[name := SyncEntry(entry.id, frequency)];
          return true;
        }
      }
      var id := nextId;
      nextId := nextId + 1;
      if WholeMinutes(seconds) > MAX_FREQUENCY {
        scheduledSyncs := scheduledSyncs[name := SyncEntry(id, Range)];
        live := live[id := WaitingUntil(now + seconds)];
      } else {
        var frequency := FrequencyFromSeconds(seconds);
        scheduledSyncs := scheduledSyncs[name := SyncEntry(id, frequency)];
        live := live[id := Waiting(frequency)];
      }
      return true;
    }

    method SetSwitch(name: string, time: int) returns (ok: bool)
      requires Sound(View())
      modifies this
      ensures Sound(View()) && View() == old(Background.SetSwitch(View(), name, time)) && ok == (name != "")
    {
      hide Sound;
      if name == "" {
        return false;
      }
      SetSwitchDoes(View(), name, time);
      if name in scheduledSwitch {
        var entry := scheduledSwitch[name];
        if entry.nextSwitch != time {
          live := live[entry.id := Stopped];
          scheduledSwitch := scheduledSwitch[name := entry.(nextSwitch := time)];
        }
        live := live[entry.id := WaitingUntil(time)];
        assert live == old(live)[entry.id := WaitingUntil(time)];
        assert scheduledSwitch == old(scheduledSwitch)[name := SwitchEntry(entry.id, time)];
      } else {
        var id := nextId;
        nextId := nextId + 1;
        scheduledSwitch := scheduledSwitch[name := SwitchEntry(id, time)];
        live := live[id := WaitingUntil(time)];
      }
      return true;
    }

    // The tables are walked until an entry has the id.
    method GetProfNameFromId(id: nat) returns (name: string)
      ensures OwnerIs(View(), id, name)
    {
      var names := scheduledSyncs.Keys;
      while names != {}
        invariant names <= scheduledSyncs.Keys
        invariant forall n | n in scheduledSyncs && n !in names :: scheduledSyncs[n].id != id
      {
        name :| name in names;
        if scheduledSyncs[name].id == id {
          assert IsSync(View(), id);
          return;
        }
        names := names - {name};
      }
      name := "";
    }

    method GetProfNameFromSwitchId(id: nat) returns (name: string)
      ensures SwitchOwnerIs(View(), id, name)
    {
      var names := scheduledSwitch.Keys;
      while names != {}
        invariant names <= scheduledSwitch.Keys
        invariant forall n | n in scheduledSwitch && n !in names :: scheduledSwitch[n].id != id
      {
        name :| name in names;
        if scheduledSwitch[name].id == id {
          assert IsSwitch(View(), id);
          return;
        }
        names := names - {name};
      }
      name := "";
    }

    // Nothing is left alive.
    method RemoveAll()
      requires Sound(View())
      modifies this
      ensures Sound(View()) && scheduledSyncs == map[] && scheduledSwitch == map[] && live == map[]
    {
      hide Sound;
      var names := scheduledSyncs.Keys;
      while names != {}
        invariant Sound(View()) && scheduledSyncs.Keys <= names
        decreases |names|
      {
        var name :| name in names;
        RemoveKeepsSound(View(), name);
        var _ := Remove(name);
        names := names - {name};
      }
      names := scheduledSwitch.Keys;
      while names != {}
        invariant Sound(View()) && scheduledSyncs == map[] && scheduledSwitch.Keys <= names
        decreases |names|
      {
        var name :| name in names;
        RemoveSwitchKeepsSound(View(), name);
        var _ := RemoveSwitch(name);
        names := names - {name};
      }
      NothingEnteredNothingLive(View());
    }
  }

  class SyncScheduler {
    const backgroundActivity: BackgroundSync
    var activeBackgroundSyncProfiles: set<string>

    constructor ()
      ensures activeBackgroundSyncProfiles == {} && fresh(backgroundActivity)
      ensures backgroundActivity.View() == NO_ACTIVITY && Sound(backgroundActivity.View())
    {
      backgroundActivity := new BackgroundSync();
      activeBackgroundSyncProfiles := {};
    }

    method SetNextAlarm(p: Plan, retry: Option<int>, now: int) returns (alarm: int)
      requires Sound(backgroundActivity.View()) && p.name != ""
      modifies backgroundActivity
      ensures Sound(backgroundActivity.View())
      ensures backgroundActivity.View() == old(Background.SetNextAlarm(backgroundActivity.View(), p, retry, now))
      ensures alarm == if p.name in backgroundActivity.scheduledSyncs then 1 else -1
    {
      hide Sound, Background.Set, Background.SetSwitch, Background.Remove, Background.RemoveSwitch;
      alarm := -1;
      NextAlarmIsSet(backgroundActivity.View(), p, retry, now);
      var next := if retry.Some? then retry else p.next;
      if next.Some? {
        alarm := 1;
        var _ := backgroundActivity.Set(p.name, next.value - now + 1, now);
      } else {
        var _ := backgroundActivity.Remove(p.name);
      }
      if p.rushEnabled && p.switchTime.Some? {
        var _ := backgroundActivity.SetSwitch(p.name, p.switchTime.value);
      } else {
        var _ := backgroundActivity.RemoveSwitch(p.name);
      }
    }

    method AddProfile(p: Plan, now: int) returns (added: bool)
      requires Sound(backgroundActivity.View()) && p.name != ""
      modifies backgroundActivity
      ensures Sound(backgroundActivity.View()) && added == (p.enabled && p.scheduled)
      ensures backgroundActivity.View() ==
              var st := old(backgroundActivity.View());
              if added then Background.SetNextAlarm(st, p, None, now) else Background.Remove(st, p.name)
    {
      hide Sound, Background.SetNextAlarm, Background.Remove;
      added := p.enabled && p.scheduled;
      if added {
        var _ := SetNextAlarm(p, None, now);
      } else {
        var _ := backgroundActivity.Remove(p.name);
      }
    }

    method AddProfileForSyncRetry(p: Plan, time: int, now: int)
      requires Sound(backgroundActivity.View()) && p.name != ""
      modifies backgroundActivity
      ensures Sound(backgroundActivity.View())
      ensures p.enabled ==> p.name in backgroundActivity.scheduledSyncs
      ensures backgroundActivity.View() ==
              var st := old(backgroundActivity.View());
              if p.enabled then Background.SetNextAlarm(st, p, Some(time), now) else st
    {
      hide Sound, Background.SetNextAlarm;
      if p.enabled {
        NextAlarmIsSet(backgroundActivity.View(), p, Some(time), now);
        var _ := SetNextAlarm(p, Some(time), now);
      }
    }

    // A timer ran out: its own profile is to be synced.
    method OnBackgroundSyncStarted(id: nat) returns (syncNow: Option<string>)
      requires Sound(backgroundActivity.View())
      modifies this`activeBackgroundSyncProfiles
      ensures syncNow.Some? <==> IsSync(backgroundActivity.View(), id)
      ensures syncNow.Some? ==>
                && syncNow.value in backgroundActivity.scheduledSyncs
                && backgroundActivity.scheduledSyncs[syncNow.value].id == id
                && activeBackgroundSyncProfiles == old(activeBackgroundSyncProfiles) + {syncNow.value}
      ensures syncNow.None? ==> activeBackgroundSyncProfiles == old(activeBackgroundSyncProfiles)
    {
      var name := backgroundActivity.GetProfNameFromId(id);
      if name == "" {
        return None;
      }
      activeBackgroundSyncProfiles := activeBackgroundSyncProfiles + {name};
      return Some(name);
    }

    // A switch timer ran out: its own profile is armed anew, if it can be loaded. If it is synced
    // externally, its status is to be reported first.
    method OnBackgroundSwitchStarted(id: nat, loadable: map<string, Plan>, now: int)
      returns (name: string, externalSyncChanged: Option<string>)
      requires Sound(backgroundActivity.View())
      requires forall n | n in loadable :: loadable[n].name == n
      modifies backgroundActivity
      ensures Sound(backgroundActivity.View())
      ensures SwitchOwnerIs(old(backgroundActivity.View()), id, name)
      ensures externalSyncChanged ==
              if IsSwitch(old(backgroundActivity.View()), id) && name in loadable && loadable[name].external
              then Some(name)
              else None
      ensures backgroundActivity.View() ==
              var st := old(backgroundActivity.View());
              if IsSwitch(st, id) && name in loadable
              then Background.SetNextAlarm(st, loadable[name], None, now)
              else st
    {
      hide Background.SetNextAlarm;
      externalSyncChanged := None;
      name := backgroundActivity.GetProfNameFromSwitchId(id);
      if name != "" && name in loadable {
        if loadable[name].external {
          externalSyncChanged := Some(name);
        }
        var _ := SetNextAlarm(loadable[name], None, now);
      }
    }

    // The end of a background sync removes its activity, and arms the next one if the profile is there.
    method SyncStatusChanged(name: string, status: int, profile: Option<Plan>, now: int)
      requires Sound(backgroundActivity.View())
      requires profile.Some? ==> profile.value.name == name != ""
      modifies this`activeBackgroundSyncProfiles, backgroundActivity
      ensures Sound(backgroundActivity.View())
      ensures var ends := name in old(activeBackgroundSyncProfiles) && status >= 3;
              var st := old(backgroundActivity.View());
              && activeBackgroundSyncProfiles == old(activeBackgroundSyncProfiles) - (if ends then {name} else {})
              && backgroundActivity.View() ==
                 if !ends then st
                 else
                   var st1 := Background.Remove(st, name);
                   if profile.Some? then Background.SetNextAlarm(st1, profile.value, None, now) else st1
    {
      hide Sound, Background.SetNextAlarm, Background.Remove;
      if name in activeBackgroundSyncProfiles && status >= SYNC_ERROR {
        activeBackgroundSyncProfiles := activeBackgroundSyncProfiles - {name};
        var _ := backgroundActivity.Remove(name);
        if profile.Some? {
          var _ := SetNextAlarm(profile.value, None, now);
        }
      }
    }
  }
}
