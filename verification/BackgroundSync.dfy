/** The background activities that wake the daemon for scheduled syncs and for rush switches. */
module Background {
  import opened Wrappers

  // The wake-up frequencies that are used; Range stands for none.
  datatype Frequency =
    | Range | FiveMinutes | TenMinutes | FifteenMinutes | ThirtyMinutes | OneHour | TwoHours
    | FourHours | EightHours | TenHours | TwelveHours | TwentyFourHours

  function Minutes(f: Frequency): nat {
    match f
    case Range => 0
    case FiveMinutes => 5
    case TenMinutes => 10
    case FifteenMinutes => 15
    case ThirtyMinutes => 30
    case OneHour => 60
    case TwoHours => 120
    case FourHours => 240
    case EightHours => 480
    case TenHours => 600
    case TwelveHours => 720
    case TwentyFourHours => 1440
  }

  const MAX_FREQUENCY := 1440

  // Division truncates toward zero.
  function WholeMinutes(seconds: int): (m: int)
    ensures if seconds >= 0 then 60 * m <= seconds < 60 * (m + 1) else 60 * (m - 1) < seconds <= 60 * m
  {
    if seconds >= 0 then seconds / 60 else -(-seconds / 60)
  }

  /** The shortest of the frequencies that does not wake too often, up to a day. */
  function FrequencyFromSeconds(seconds: int): (f: Frequency)
    ensures f != Range
    ensures WholeMinutes(seconds) <= MAX_FREQUENCY ==> Minutes(f) >= WholeMinutes(seconds)
    ensures forall g: Frequency | g != Range && Minutes(g) >= WholeMinutes(seconds) :: Minutes(f) <= Minutes(g)
    ensures WholeMinutes(seconds) > MAX_FREQUENCY ==> f == TwentyFourHours
  {
    var minutes := WholeMinutes(seconds);
    if minutes <= 5 then FiveMinutes
    else if minutes <= 10 then TenMinutes
    else if minutes <= 15 then FifteenMinutes
    else if minutes <= 30 then ThirtyMinutes
    else if minutes <= 60 then OneHour
    else if minutes <= 2 * 60 then TwoHours
    else if minutes <= 4 * 60 then FourHours
    else if minutes <= 8 * 60 then EightHours
    else if minutes <= 10 * 60 then TenHours
    else if minutes <= 12 * 60 then TwelveHours
    else TwentyFourHours
  }

  // What an activity is doing.
  datatype Activity = Stopped | Waiting(frequency: Frequency) | WaitingUntil(time: int) | Running

  datatype SyncEntry = SyncEntry(id: nat, frequency: Frequency)

  datatype SwitchEntry = SwitchEntry(id: nat, nextSwitch: int)

  // Activities that exist, by their ids, and the two tables that refer to them.
  datatype State = State(
    syncs: map<string, SyncEntry>,
    switches: map<string, SwitchEntry>,
    live: map<nat, Activity>,
    nextId: nat)

  const NO_ACTIVITY := State(map[], map[], map[], 0)

  // Named entries that refer to existing activities, each to its own.
  ghost predicate Entered(st: State) {
    && "" !in st.syncs && "" !in st.switches
    && (forall n | n in st.syncs :: st.syncs[n].id in st.live)
    && (forall n | n in st.switches :: st.switches[n].id in st.live)
    && (forall a, b | a in st.syncs && b in st.syncs && st.syncs[a].id == st.syncs[b].id :: a == b)
    && (forall a, b | a in st.switches && b in st.switches && st.switches[a].id == st.switches[b].id :: a == b)
    && (forall a, b | a in st.syncs && b in st.switches :: st.syncs[a].id != st.switches[b].id)
  }

  ghost predicate IsSync(st: State, id: nat) {
    exists n :: n in st.syncs && st.syncs[n].id == id
  }

  ghost predicate IsSwitch(st: State, id: nat) {
    exists n :: n in st.switches && st.switches[n].id == id
  }

  /** Each existing activity is entered exactly once, and nothing else is entered. */
  ghost predicate Sound(st: State) {
    Entered(st) && forall id | id in st.live :: id < st.nextId && (IsSync(st, id) || IsSwitch(st, id))
  }

  function RemoveSwitch(st: State, name: string): State {
    if name !in st.switches then st
    else st.(switches := st.switches - {name}, live := st.live - {st.switches[name].id})
  }

  function RemoveSync(st: State, name: string): State {
    if name !in st.syncs then st
    else st.(syncs := st.syncs - {name}, live := st.live - {st.syncs[name].id})
  }

  // The switch goes with the sync, or alone.
  function Remove(st: State, name: string): State {
    RemoveSync(RemoveSwitch(st, name), name)
  }

  function AddSync(st: State, name: string, frequency: Frequency, activity: Activity): State {
    State(st.syncs[name := SyncEntry(st.nextId, frequency)], st.switches, st.live[st.nextId := activity], st.nextId + 1)
  }

  // An interval of more than a day is waited for once; one that replaces another drops the switch too.
  function Set(st: State, name: string, seconds: int, now: int): State {
    if name == "" then st
    else if WholeMinutes(seconds) > MAX_FREQUENCY then
      AddSync(if name in st.syncs then Remove(st, name) else st, name, Range, WaitingUntil(now + seconds))
    else
      var f := FrequencyFromSeconds(seconds);
      if name in st.syncs then
        var id := st.syncs[name].id;
        st.(syncs := st.syncs[name := SyncEntry(id, f)], live := st.live[id := Waiting(f)])
      else AddSync(st, name, f, Waiting(f))
  }

  function SetSwitch(st: State, name: string, time: int): State {
    if name == "" then st
    else
      var id := if name in st.switches then st.switches[name].id else st.nextId;
      st.(switches := st.switches[name := SwitchEntry(id, time)],
          live := st.live[id := WaitingUntil(time)],
          nextId := if name in st.switches then st.nextId else st.nextId + 1)
  }

  // What the scheduler learns of a profile: its next sync and its next rush switch, if any, and
  // whether it is synced externally, always or during rush hours.
  datatype Plan = Plan(
    name: string,
    enabled: bool,
    scheduled: bool,
    next: Option<int>,
    rushEnabled: bool,
    switchTime: Option<int>,
    external: bool)

  function UpdateSwitch(st: State, p: Plan): State {
    if p.rushEnabled && p.switchTime.Some? then SetSwitch(st, p.name, p.switchTime.value)
    else RemoveSwitch(st, p.name)
  }

  // `retry` overrides the profile's own next time.
  function SetNextAlarm(st: State, p: Plan, retry: Option<int>, now: int): State {
    var next := if retry.Some? then retry else p.next;
    var st1 := if next.Some? then Set(st, p.name, next.value - now + 1, now) else Remove(st, p.name);
    UpdateSwitch(st1, p)
  }

  // Entries of other profiles stay, and the activities they refer to.
  ghost predicate SparesOthers(st: State, st1: State, name: string) {
    && st1.syncs - {name} == st.syncs - {name}
    && st1.switches - {name} == st.switches - {name}
    && (forall n | n in st.syncs && n != name ::
          && st.syncs[n].id in st.live && st.syncs[n].id in st1.live
          && st1.live[st.syncs[n].id] == st.live[st.syncs[n].id])
    && (forall n | n in st.switches && n != name ::
          && st.switches[n].id in st.live && st.switches[n].id in st1.live
          && st1.live[st.switches[n].id] == st.live[st.switches[n].id])
  }

  lemma SparesTransitive(a: State, b: State, c: State, name: string)
    requires SparesOthers(a, b, name) && SparesOthers(b, c, name)
    ensures SparesOthers(a, c, name)
  {
    forall n | n in a.syncs && n != name
      ensures a.syncs[n].id in c.live && c.live[a.syncs[n].id] == a.live[a.syncs[n].id]
    {
      assert n in a.syncs - {name};
      assert n in b.syncs && b.syncs[n] == a.syncs[n];
    }
    forall n | n in a.switches && n != name
      ensures a.switches[n].id in c.live && c.live[a.switches[n].id] == a.live[a.switches[n].id]
    {
      assert n in a.switches - {name};
      assert n in b.switches && b.switches[n] == a.switches[n];
    }
  }

  // A new activity, or a changed one of this profile, is nobody else's.
  lemma UpdateSpares(st: State, st1: State, name: string, id: nat)
    requires Sound(st) && st1.live - {id} == st.live - {id}
    requires st1.syncs - {name} == st.syncs - {name} && st1.switches - {name} == st.switches - {name}
    requires id == st.nextId || (name in st.syncs && st.syncs[name].id == id)
             || (name in st.switches && st.switches[name].id == id)
    ensures SparesOthers(st, st1, name)
  {
    forall n | n in st.syncs && n != name ensures st.syncs[n].id in st.live - {id} {}
    forall n | n in st.switches && n != name ensures st.switches[n].id in st.live - {id} {}
  }

  lemma OtherSwitch(st: State, name: string, id: nat)
    requires name in st.switches ==> id != st.switches[name].id
    ensures IsSwitch(st, id) ==> IsSwitch(RemoveSwitch(st, name), id)
    ensures IsSync(st, id) ==> IsSync(RemoveSwitch(st, name), id)
  {
    if IsSwitch(st, id) {
      var n :| n in st.switches && st.switches[n].id == id;
      assert n in RemoveSwitch(st, name).switches;
    }
  }

  lemma RemovalKeepsEntries(st: State, name: string)
    requires Entered(st)
    ensures Entered(RemoveSwitch(st, name)) && Entered(RemoveSync(st, name))
  {}

  lemma RemoveSwitchKeepsSound(st: State, name: string)
    requires Sound(st)
    ensures var st1 := RemoveSwitch(st, name);
            Sound(st1) && name !in st1.switches && st1.syncs == st.syncs && st1.switches == st.switches - {name}
  {
    RemovalKeepsEntries(st, name);
    hide Entered, IsSync, IsSwitch;
    var st1 := RemoveSwitch(st, name);
    forall id | id in st1.live ensures IsSync(st1, id) || IsSwitch(st1, id) {
      OtherSwitch(st, name, id);
    }
  }

  // What goes is referred to by this profile only.
  lemma RemovalSpares(st: State, name: string)
    requires Sound(st)
    ensures SparesOthers(st, RemoveSwitch(st, name), name) && SparesOthers(st, Remove(st, name), name)
  {
    hide SparesOthers, Sound;
    var st1, st2 := RemoveSwitch(st, name), Remove(st, name);
    RemoveSwitchKeepsSound(st, name);
    UpdateSpares(st, st1, name, if name in st.switches then st.switches[name].id else st.nextId);
    UpdateSpares(st1, st2, name, if name in st1.syncs then st1.syncs[name].id else st1.nextId);
    SparesTransitive(st, st1, st2, name);
  }

  lemma RemoveSyncKeepsSound(st: State, name: string)
    requires Sound(st)
    ensures Sound(RemoveSync(st, name))
  {
    RemovalKeepsEntries(st, name);
    hide Entered;
    var st1 := RemoveSync(st, name);
    forall id | id in st1.live ensures IsSync(st1, id) || IsSwitch(st1, id) {
      if IsSync(st, id) {
        var n :| n in st.syncs && st.syncs[n].id == id;
        assert n in st1.syncs;
      } else {
        assert IsSwitch(st, id);
      }
    }
  }

  lemma RemoveKeepsSound(st: State, name: string)
    requires Sound(st)
    ensures var st1 := Remove(st, name);
            && Sound(st1)
            && st1.syncs == st.syncs - {name} && st1.switches == st.switches - {name} && st1.nextId == st.nextId
  {
    hide Sound;
    RemoveSwitchKeepsSound(st, name);
    RemoveSyncKeepsSound(RemoveSwitch(st, name), name);
  }

  lemma AddSyncKeepsSound(st: State, name: string, frequency: Frequency, activity: Activity)
    requires Sound(st) && name != "" && name !in st.syncs
    ensures Sound(AddSync(st, name, frequency, activity))
  {
    var st1 := AddSync(st, name, frequency, activity);
    assert st1.syncs[name].id == st.nextId;
    forall id | id in st1.live ensures IsSync(st1, id) || IsSwitch(st1, id) {
      if id != st.nextId {
        if IsSync(st, id) {
          var n :| n in st.syncs && st.syncs[n].id == id;
          assert n in st1.syncs && st1.syncs[n].id == id;
        } else {
          assert IsSwitch(st, id);
        }
      }
    }
  }

  lemma SameIdsKeepSound(st: State, st1: State)
    requires Sound(st) && st1.nextId == st.nextId && st1.live.Keys == st.live.Keys
    requires st1.syncs.Keys == st.syncs.Keys && st1.switches.Keys == st.switches.Keys
    requires forall n | n in st.syncs :: st1.syncs[n].id == st.syncs[n].id
    requires forall n | n in st.switches :: st1.switches[n].id == st.switches[n].id
    ensures Sound(st1)
  {
    forall id | id in st1.live ensures IsSync(st1, id) || IsSwitch(st1, id) {
      assert id in st.live;
      if IsSync(st, id) {
        var n :| n in st.syncs && st.syncs[n].id == id;
        assert n in st1.syncs && st1.syncs[n].id == id;
      } else {
        var n :| n in st.switches && st.switches[n].id == id;
        assert n in st1.switches && st1.switches[n].id == id;
      }
    }
  }

  lemma EntriesAreLive(st: State)
    requires Sound(st)
    ensures forall n | n in st.syncs :: st.syncs[n].id in st.live
    ensures forall n | n in st.switches :: st.switches[n].id in st.live
    ensures forall a, b | a in st.syncs && b in st.switches :: st.syncs[a].id != st.switches[b].id
    ensures st.nextId !in st.live
  {}

  // The profile then has an activity that waits as asked: once for the whole time if that is more than
  // a day, and else again and again with the frequency for it. An activity it had goes on being used,
  // unless the time is too long, when its switch goes too. Other profiles keep theirs.
  lemma SetDoes(st: State, name: string, seconds: int, now: int)
    requires Sound(st) && name != ""
    ensures var st1 := Set(st, name, seconds, now);
            && Sound(st1) && name in st1.syncs && SparesOthers(st, st1, name)
            && var (e, long) := (st1.syncs[name], seconds >= 1441 * 60);
               && e.frequency == (if long then Range else FrequencyFromSeconds(seconds))
               && st1.live[e.id] == (if long then WaitingUntil(now + seconds) else Waiting(e.frequency))
               && (if name in st.syncs && !long then e.id == st.syncs[name].id else e.id == st.nextId)
               && (if name in st.syncs && long then name !in st1.switches
                   else (name in st1.switches <==> name in st.switches)
                        && (name in st.switches ==> st1.switches[name] == st.switches[name]))
  {
    hide Sound, FrequencyFromSeconds, WholeMinutes, Remove, SparesOthers;
    assert WholeMinutes(seconds) > MAX_FREQUENCY <==> seconds >= 1441 * 60;
    var f := FrequencyFromSeconds(seconds);
    var st1 := Set(st, name, seconds, now);
    if WholeMinutes(seconds) > MAX_FREQUENCY {
      RemoveKeepsSound(st, name);
      var st0 := if name in st.syncs then Remove(st, name) else st;
      AddSyncKeepsSound(st0, name, Range, WaitingUntil(now + seconds));
      UpdateSpares(st0, st1, name, st0.nextId);
      if name in st.syncs {
        RemovalSpares(st, name);
        SparesTransitive(st, st0, st1, name);
      }
    } else if name in st.syncs {
      assert st.syncs[name].id in st.live by { EntriesAreLive(st); }
      SameIdsKeepSound(st, st1);
      UpdateSpares(st, st1, name, st.syncs[name].id);
    } else {
      AddSyncKeepsSound(st, name, f, Waiting(f));
      UpdateSpares(st, st1, name, st.nextId);
    }
  }

  // Without a name nothing is set.
  lemma NamelessIsIgnored(st: State, seconds: int, now: int, time: int)
    ensures Set(st, "", seconds, now) == st && SetSwitch(st, "", time) == st
  {}

  lemma AddSwitchKeepsSound(st: State, name: string, time: int)
    requires Sound(st) && name != "" && name !in st.switches
    ensures Sound(SetSwitch(st, name, time))
  {
    var st1 := SetSwitch(st, name, time);
    assert st1.switches[name].id == st.nextId;
    forall id | id in st1.live ensures IsSync(st1, id) || IsSwitch(st1, id) {
      if id != st.nextId {
        if IsSwitch(st, id) {
          var n :| n in st.switches && st.switches[n].id == id;
          assert n in st1.switches && st1.switches[n].id == id;
        } else {
          assert IsSync(st, id);
        }
      }
    }
  }

  lemma SetSwitchDoes(st: State, name: string, time: int)
    requires Sound(st) && name != ""
    ensures var st1 := SetSwitch(st, name, time);
            && Sound(st1) && name in st1.switches && st1.switches[name].nextSwitch == time
            && st1.switches[name].id == (if name in st.switches then st.switches[name].id else st.nextId)
            && st1.syncs == st.syncs && SparesOthers(st, st1, name)
            && st1.live[st1.switches[name].id] == WaitingUntil(time)
            && (forall n | n in st.syncs :: st1.live[st.syncs[n].id] == st.live[st.syncs[n].id])
  {
    hide Sound, SparesOthers;
    EntriesAreLive(st);
    var st1 := SetSwitch(st, name, time);
    if name in st.switches {
      SameIdsKeepSound(st, st1);
      UpdateSpares(st, st1, name, st.switches[name].id);
    } else {
      AddSwitchKeepsSound(st, name, time);
      UpdateSpares(st, st1, name, st.nextId);
    }
  }

  lemma RemoveSwitchKeepsSyncs(st: State, name: string)
    requires Sound(st)
    ensures forall n | n in st.syncs ::
              st.syncs[n].id in RemoveSwitch(st, name).live
              && RemoveSwitch(st, name).live[st.syncs[n].id] == st.live[st.syncs[n].id]
  {
    hide Sound;
    EntriesAreLive(st);
  }

  /** Afterwards the profile has a sync activity exactly if it has a next time, and a switch activity
      exactly if rush hours are on and there is a switch to come; both wait for just that, no other
      profile's activities are touched, and none is left over. */
  lemma NextAlarmIsSet(st: State, p: Plan, retry: Option<int>, now: int)
    requires Sound(st) && p.name != ""
    ensures var st1 := SetNextAlarm(st, p, retry, now);
            var next := if retry.Some? then retry else p.next;
            && Sound(st1)
            && (p.name in st1.syncs <==> next.Some?)
            && (p.name in st1.switches <==> p.rushEnabled && p.switchTime.Some?)
            && (p.name in st1.syncs ==>
                  var seconds := next.value - now + 1;
                  st1.live[st1.syncs[p.name].id] ==
                  if seconds >= 1441 * 60 then WaitingUntil(next.value + 1)
                  else Waiting(FrequencyFromSeconds(seconds)))
            && (p.name in st1.switches ==>
                  && st1.switches[p.name].nextSwitch == p.switchTime.value
                  && st1.live[st1.switches[p.name].id] == WaitingUntil(p.switchTime.value))
            && SparesOthers(st, st1, p.name)
  {
    hide Sound, Set, Remove, SetSwitch, RemoveSwitch, FrequencyFromSeconds, WholeMinutes, SparesOthers;
    var next := if retry.Some? then retry else p.next;
    var st1 := if next.Some? then Set(st, p.name, next.value - now + 1, now) else Remove(st, p.name);
    if next.Some? {
      SetDoes(st, p.name, next.value - now + 1, now);
    } else {
      RemoveKeepsSound(st, p.name);
      RemovalSpares(st, p.name);
    }
    if p.rushEnabled && p.switchTime.Some? {
      SetSwitchDoes(st1, p.name, p.switchTime.value);
    } else {
      RemoveSwitchKeepsSound(st1, p.name);
      RemoveSwitchKeepsSyncs(st1, p.name);
      RemovalSpares(st1, p.name);
    }
    SparesTransitive(st, st1, SetNextAlarm(st, p, retry, now), p.name);
  }

  // The profile whose sync activity has this id.
  ghost predicate OwnerIs(st: State, id: nat, name: string) {
    if IsSync(st, id) then name in st.syncs && st.syncs[name].id == id else name == ""
  }

  // The profile whose switch activity has this id.
  ghost predicate SwitchOwnerIs(st: State, id: nat, name: string) {
    if IsSwitch(st, id) then name in st.switches && st.switches[name].id == id else name == ""
  }

  /** Looking up the id of an activity in the table it belongs to gives its own profile, and in the
      other table none. */
  lemma LookupGivesOwnProfile(st: State, id: nat, name: string, switchName: string)
    requires Sound(st) && id in st.live && OwnerIs(st, id, name) && SwitchOwnerIs(st, id, switchName)
    ensures (name == "") != (switchName == "")
    ensures forall n | n in st.syncs && st.syncs[n].id == id :: n == name
    ensures forall n | n in st.switches && st.switches[n].id == id :: n == switchName
  {}
}
