/** What the caller of a start or of an abort can rely on. */
module SchedulerOutcomes {
  import opened Wrappers
  import opened StorageBooking
  import opened SyncProfiles
  import opened Scheduler
  import opened SchedulerTheorems
  import opened SchedulerLimits

  predicate Alive(st: State, name: string) {
    name in st.active || IsQueued(st.queue, name)
  }

  // A start that finds a profile it could run, but whose client is busy with another one.
  predicate ClientBusy(st: State, name: string, found: Option<SyncProfile>) {
    && !Alive(st, name)
    && found.Some? && found.value.enabled
    && found.value.client.Some? && ClientActive(st, found.value.client.value)
  }

  // Announced by this call, and nothing else.
  ghost predicate Announces(st: State, st1: State, name: string, status: Status) {
    st1.trace == st.trace + [Emission(name, status)]
  }

  lemma QueuedAtEnd(q: seq<Session>, s: Session)
    ensures IsQueued(q + [s], s.profile.name)
    ensures forall n | n != s.profile.name :: IsQueued(q + [s], n) == IsQueued(q, n)
  {
    assert (q + [s])[|q|] == s;
    forall n | IsQueued(q, n) ensures IsQueued(q + [s], n) {
      var i :| 0 <= i < |q| && q[i].profile.name == n;
      assert (q + [s])[i] == q[i];
    }
  }

  lemma FreshOutcome(st: State, name: string, s: Session, env: Env)
    requires s.profile.name == name && !Alive(st, name) && !st.backup.on
    ensures var (st1, answer) := StartFresh(st, name, s, env);
            var busy := s.profile.client.Some? && ClientActive(st, s.profile.client.value);
            && (Alive(st1, name) <==> answer || busy) && !(answer && busy)
            && (IsQueued(st1.queue, name) ==> name !in st1.active && Announces(st, st1, name, Queued))
            && (name in st1.active ==> Announces(st, st1, name, Started))
            && (!Alive(st1, name) ==> Announces(st, st1, name, Error) && st1.ended == st.ended + multiset{name})
  {
    hide ClientActive, IsQueued, ReserveFor, StartSyncNow, Cleanup, Backends;
    var (st1, s1, _) := ReserveFor(st, s);
    ReserveFrame(st, s);
    StartNowFrame(st1, s1, env);
    CleanupFrame(Emit(st, name, Error), s);
    CleanupFrame(Emit(st1, name, Error), StartSyncNow(st1, s1, env).1);
    QueuedAtEnd(st.queue, s);
    QueuedAtEnd(st.queue, s1);
  }

  /** While no backup is on, the profile is running or waiting after a start exactly if the answer is
      yes or its client is busy: that start answers no although the sync is queued. A sync that was
      made active, queued, or could not be started is announced as just that; one that was running
      already is not announced. During a backup nothing changes, and the caller is told so. */
  lemma StartAnswers(st: State, name: string, scheduled: bool, found: Option<SyncProfile>, env: Env)
    requires found.Some? ==> found.value.name == name
    ensures var (st1, answer) := StartSync(st, name, scheduled, found, env);
            if st.backup.on then !answer && st1 == Emit(st, name, NotPossible)
            else
              && (Alive(st1, name) <==> answer || ClientBusy(st, name, found))
              && !(answer && ClientBusy(st, name, found))
              && (name in st.active ==> st1 == st)
              && (name !in st.active && IsQueued(st1.queue, name) ==> Announces(st, st1, name, Queued))
              && (name in st1.active && name !in st.active ==> Announces(st, st1, name, Started))
              && (!Alive(st1, name) ==> Announces(st, st1, name, Error))
  {
    hide StartFresh, IsQueued, ClientActive;
    if !st.backup.on && !Alive(st, name) && found.Some? {
      FreshOutcome(st.(created := st.created + 1), name,
                   Session(found.value, scheduled, false, false, false, false), env);
      SameClients(st, st.(created := st.created + 1));
    }
  }

  // -------------------------------------------------------------------------------------------
  // Who is started
  // -------------------------------------------------------------------------------------------

  // Each back-end of an enabled storage is free or the profile's own.
  ghost predicate Bookable(booker: Bookings, p: SyncProfile) {
    forall i | IsFirst(p.storages, i) && p.storages[i].enabled ::
      var b := p.storages[i].backend; b in booker ==> p.name != "" && booker[b].client == p.name
  }

  lemma BookableIff(booker: Bookings, p: SyncProfile)
    ensures Bookable(booker, p) <==> AllAvailable(booker, BackendNames(p.storages), p.name)
  {
    hide BackendNames;
    if Bookable(booker, p) {
      forall b | b in BackendNames(p.storages) ensures Available(booker, b, p.name) {
        UsedBackends(p.storages, b);
      }
    } else {
      var i :| IsFirst(p.storages, i) && p.storages[i].enabled
               && var b := p.storages[i].backend; b in booker && !(p.name != "" && booker[b].client == p.name);
      UsedBackends(p.storages, p.storages[i].backend);
      assert !Available(booker, p.storages[i].backend, p.name);
    }
  }

  ghost predicate Busy(st: State, p: SyncProfile) {
    p.client.Some? && exists n | n in st.active :: st.active[n].profile.client == p.client
  }

  lemma BusyIff(st: State, p: SyncProfile)
    ensures Busy(st, p) <==> p.client.Some? && ClientActive(st, p.client.value)
  {}

  // The plug-in runner initialises, and starts or is a manual online sync's, started once the
  // network is there.
  ghost predicate Runs(p: SyncProfile, scheduled: bool, env: Env) {
    p.client.Some? && env.runnerInits && ((p.online && !scheduled) || env.runnerStarts)
  }

  // The session as it becomes active.
  ghost function Running(p: SyncProfile, scheduled: bool): Session {
    Session(p, scheduled, true, false, false, true)
  }

  ghost predicate IsRefused(p: SyncProfile, scheduled: bool, env: Env) {
    !p.valid || (scheduled && (env.lowPower || env.powerSave))
  }

  lemma StartNowIs(st: State, s: Session, env: Env)
    ensures var (st1, s1, ok) := StartSyncNow(st, s, env);
            && ok == (!st.backup.on && Runs(s.profile, s.scheduled, env))
            && st1 == (if ok then st.(active := st.active[s.profile.name := s.(started := true)]) else st)
  {}

  // Booked for and tried, with the client free: it runs, or it ends and everything is given back.
  lemma TriedFresh(st: State, s: Session, env: Env)
    requires !st.backup.on && !s.holds && !s.started && !s.aborted && !s.finished
    requires AllAvailable(st.booker, Backends(s), s.profile.name)
    ensures var (st1, s1, _) := ReserveFor(st, s);
            var (st2, s2, ok) := StartSyncNow(st1, s1, env);
            var name := s.profile.name;
            && ok == Runs(s.profile, s.scheduled, env)
            && (ok ==> st2 == st.(booker := st2.booker,
                                  active := st.active[name := Running(s.profile, s.scheduled)]))
            && (!ok ==>
                  var st3 := Cleanup(Emit(st2, name, Error), s2, Backends(s2));
                  st3 == Emit(st.(booker := st3.booker, ended := st.ended + multiset{name}), name, Error)
                  && (WellCounted(st.booker) ==> st3.booker == st.booker))
  {
    hide BackendNames, AllAvailable, Granted, Released, WellCounted;
    var (st1, s1, _) := ReserveFor(st, s);
    StartNowIs(st1, s1, env);
    StartNowFrame(st1, s1, env);
    if WellCounted(st.booker) {
      ReleaseUndoesReserve(st.booker, Backends(s), s.profile.name);
    }
  }

  /** What becomes of a start whose profile is neither running nor waiting, read off what was there
      before it. With a busy client it waits and the answer is no. If not, a profile that is not valid
      and a scheduled one on low power or in power-save mode end with an error; one whose storages are
      taken waits and the answer is yes; and of the rest those run, with yes, whose runner does, while
      the others end with an error and leave nothing booked. */
  lemma StartOutcome(st: State, name: string, scheduled: bool, p: SyncProfile, env: Env)
    requires !st.backup.on && name !in st.active && !IsQueued(st.queue, name)
    requires p.name == name && p.enabled
    ensures var (st1, answer) := StartSync(st, name, scheduled, Some(p), env);
            var counted := st.(created := st.created + 1);
            var waits := Emit(counted.(queue := st.queue + [Session(p, scheduled, false, false, false, false)]),
                              name, Queued);
            var fails := Emit(counted.(ended := st.ended + multiset{name}), name, Error);
            if Busy(st, p) then st1 == waits && !answer
            else if IsRefused(p, scheduled, env) then st1 == fails && !answer
            else if !Bookable(st.booker, p) then st1 == waits && answer
            else if !Runs(p, scheduled, env) then
              !answer && st1 == fails.(booker := st1.booker) && (WellCounted(st.booker) ==> st1 == fails)
            else
              answer && st1 == Emit(counted.(booker := st1.booker,
                                             active := st.active[name := Running(p, scheduled)]), name, Started)
  {
    hide BackendNames, ClientActive, IsQueued, AllAvailable, WellCounted, Runs, Bookable, Busy;
    var counted := st.(created := st.created + 1);
    var s := Session(p, scheduled, false, false, false, false);
    BusyIff(st, p);
    SameClients(st, counted);
    BookableIff(st.booker, p);
    if AllAvailable(st.booker, Backends(s), name) {
      TriedFresh(counted, s, env);
    }
    hide Running, StartSyncNow;
  }

  /** So, in one line, a start makes a profile active exactly under these conditions. */
  lemma StartedIff(st: State, name: string, scheduled: bool, p: SyncProfile, env: Env)
    requires !st.backup.on && name !in st.active && !IsQueued(st.queue, name)
    requires p.name == name && p.enabled
    ensures name in StartSync(st, name, scheduled, Some(p), env).0.active <==>
            && p.valid && p.client.Some? && (forall n | n in st.active :: st.active[n].profile.client != p.client)
            && !(scheduled && (env.lowPower || env.powerSave))
            && Bookable(st.booker, p)
            && env.runnerInits && ((p.online && !scheduled) || env.runnerStarts)
  {
    StartOutcome(st, name, scheduled, p, env);
    hide StartSync, IsQueued, Bookable;
  }

  /** The other starts: during a backup, of what runs, of what waits, and of no profile that is there
      and enabled. */
  lemma StartOtherwise(st: State, name: string, scheduled: bool, found: Option<SyncProfile>, env: Env)
    ensures var r := StartSync(st, name, scheduled, found, env);
            if st.backup.on then r == (Emit(st, name, NotPossible), false)
            else if name in st.active then r == (st, true)
            else if exists i :: 0 <= i < |st.queue| && st.queue[i].profile.name == name then
              r == (Emit(st, name, Queued), true)
            else found.None? || !found.value.enabled ==> r == (Emit(st, name, Error), false)
  {
    hide StartFresh;
  }

  /** One attempt on the head of the queue. On low power a scheduled sync ends with an error before
      anything is looked at; without its storages it stays; with them but without its client it stays
      and keeps them; and else it runs or ends with an error, as its runner does. */
  lemma AttemptOutcome(st: State, envs: string -> Env)
    requires QueueHasClients(st.queue) && st.queue != [] && !st.backup.on
    ensures var (st1, again) := StartNextSync(st, envs);
            var s, rest := st.queue[0], st.(queue := st.queue[1..]);
            var (p, name, env) := (s.profile, s.profile.name, envs(s.profile.name));
            var fails := Emit(rest.(booker := st1.booker, surplus := st1.surplus,
                                    ended := st.ended + multiset{name}), name, Error);
            if s.scheduled && env.lowPower then again && st1 == fails && st1.surplus == st.surplus
            else if !Bookable(st.booker, p) then !again && st1 == st
            else if Busy(st, p) then
              !again && st1 == st.(booker := st1.booker, surplus := st1.surplus,
                                   queue := [s.(holds := true)] + st.queue[1..])
            else if !Runs(p, s.scheduled, env) then again && st1 == fails
            else
              again && st1 == Emit(rest.(booker := st1.booker, surplus := st1.surplus,
                                         active := st.active[name := s.(started := true, holds := true)]),
                                   name, Started)
  {
    hide BackendNames, ClientActive, AllAvailable, Granted, Released, Runs, Bookable, Busy, StartSyncNow;
    var s, rest := st.queue[0], st.(queue := st.queue[1..]);
    var (st1, s1, reserved) := ReserveFor(rest, s);
    BusyIff(st, s.profile);
    SameClients(st, st1);
    BookableIff(st.booker, s.profile);
    StartNowIs(st1, s1, envs(s.profile.name));
    StartNowFrame(st1, s1, envs(s.profile.name));
  }

  /** A request from outside books everything or nothing: the caller owns what it gets, each name once
      for each time it is listed, or once in all for a caller without a name. */
  lemma RequestOutcome(st: State, names: seq<string>, client: string, b: string)
    ensures var st1 := RequestStorages(st, names, client);
            if exists n | n in names :: n in st.booker && (client == "" || st.booker[n].client != client) then st1 == st
            else
              && st1 == st.(booker := st1.booker, external := st1.external)
              && (b in names ==> b in st1.booker && st1.booker[b].client == client
                                 && st1.booker[b].count == Count(st.booker, b)
                                                           + if client == "" then 1 else multiset(names)[b])
              && (b !in names ==> (b in st1.booker <==> b in st.booker)
                                  && (b in st.booker ==> st1.booker[b] == st.booker[b]))
  {
    hide Granted;
    GrantedAt(st.booker, names, client, b);
    assert AllAvailable(st.booker, names, client) <==> forall n | n in names :: Available(st.booker, n, client);
  }

  /** Giving back takes off each name as often as it is listed, down to nothing, whoever owns it. */
  lemma GiveOutcome(st: State, names: seq<string>, b: string)
    ensures var (st1, given) := (ReleaseExternal(st, names), multiset(names)[b]);
            && st1 == st.(booker := st1.booker, external := st1.external)
            && (b in st1.booker <==> b in st.booker && given < st.booker[b].count)
            && (b in st1.booker ==> st1.booker[b] == Item(st.booker[b].client, st.booker[b].count - given))
  {}

  /** While "a" runs, "b" with the same client is queued and told no; "c" with another client but the
      same storage is queued and told yes. */
  lemma QueuedIsAnsweredEitherWay()
    ensures Reaches(INITIAL, [Start("a", false, Some(A), FINE)], AFTER_A)
    ensures var c := OneStorage("c", "x").(client := Some("other"));
            var ((st1, no), (st2, yes)) := (StartSync(AFTER_A, "b", false, Some(B), FINE),
                                            StartSync(AFTER_A, "c", false, Some(c), FINE));
            IsQueued(st1.queue, "b") && !no && IsQueued(st2.queue, "c") && yes
  {
    StartA();
    hide Step;
    var run := [Start("a", false, Some(A), FINE)];
    assert Reaches(AFTER_A, run[1..], AFTER_A);
    ReachesFrom(INITIAL, run, 0, AFTER_A);
    assert run[0..] == run;
    assert AFTER_A.active["a"].profile.client == Some("client");
    assert ClientActive(AFTER_A, "client") && !ClientActive(AFTER_A, "other");
    QueuedAtEnd([], Session(B, false, false, false, false, false));
    var c := OneStorage("c", "x").(client := Some("other"));
    OneBackend("c", "x");
    StartTaken(AFTER_A, c, "x");
    QueuedAtEnd([], Session(c, false, false, false, false, false));
  }

  ghost predicate NamedOnce(q: seq<Session>) {
    forall i, j | 0 <= i < j < |q| :: q[i].profile.name != q[j].profile.name
  }

  /** Aborting a sync that is not active leaves it nowhere, ends the session that waited for it and no
      other, keeps everybody else waiting in order, and is announced as a cancellation in any case. */
  lemma AbortOfWaiting(st: State, name: string, prompt: Option<Signal>, envs: string -> Env)
    requires QueueHasClients(st.queue) && NamedOnce(st.queue) && name !in st.active
    ensures var st1 := AbortSync(st, name, prompt, envs);
            && !Alive(st1, name) && st1.active == st.active && Announces(st, st1, name, Cancelled)
            && st1.ended == st.ended + (if IsQueued(st.queue, name) then multiset{name} else multiset{})
            && (IsQueued(st.queue, name) ==>
                  var i := IndexOf(st.queue, name);
                  st.queue[i].profile.name == name && st1.queue == st.queue[..i] + st.queue[i + 1..])
            && (!IsQueued(st.queue, name) ==> st1.queue == st.queue && st1.booker == st.booker)
  {
    hide BackendNames, Released;
    if IsQueued(st.queue, name) {
      var i := IndexOf(st.queue, name);
      var left := st.queue[..i] + st.queue[i + 1..];
      forall k | 0 <= k < |left| ensures left[k].profile.name != name {
        assert left[k] == st.queue[if k < i then k else k + 1];
      }
    }
  }
}
