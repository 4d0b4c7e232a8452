/** Where the scheduler's promises stop: two ways in which reservations go wrong, each with a
    concrete run or state and the exact condition under which it does not happen. */
module SchedulerLimits {
  import opened Wrappers
  import opened StorageBooking
  import opened SyncProfiles
  import opened Ledger
  import opened Scheduler
  import opened SchedulerInvariant
  import opened SchedulerRuns
  import opened SchedulerTheorems
  import opened SchedulerResults

  // -------------------------------------------------------------------------------------------
  // A reservation nobody gives back
  // -------------------------------------------------------------------------------------------

  function OneStorage(name: string, storage: string): SyncProfile {
    SyncProfile(name, Some("client"), [Storage(storage, storage, true)], true, true, false)
  }

  const FINE := Env(false, false, true, true)

  lemma OneBackend(name: string, storage: string)
    ensures BackendNames(OneStorage(name, storage).storages) == [storage]
    ensures BackendNames(EnableStorages(OneStorage(name, storage).storages, {})) == [storage]
  {
    var ss := OneStorage(name, storage).storages;
    assert ss == [Storage(storage, storage, true)] && ss[1..] == [];
    assert EnableStorages(ss, {}) == ss;
    assert Names(ss) == [storage] && [storage][1..] == [];
    assert SubProfile(ss, storage) == Some(ss[0]);
    assert EnabledBackends(ss, [storage]) == [storage] + EnabledBackends(ss, []);
  }

  // The run: "a" runs; "b", with the same client but another storage, waits. Some storage is
  // released, so "b" is tried: its storage is booked, its client is busy. When "a" is done "b" is
  // booked for again, runs, and gives its storage back once.
  const A := OneStorage("a", "x")
  const B := OneStorage("b", "y")
  const RUNNING_A := Session(A, false, true, false, false, true)
  const WAITING_B := Session(B, false, false, false, false, false)
  const RUNNING_B := Session(B, false, true, false, false, true)

  const AFTER_A := INITIAL.(
    booker := map["x" := Item("a", 1)], active := map["a" := RUNNING_A], created := 1,
    trace := [Emission("a", Started)])
  const AFTER_B := AFTER_A.(
    queue := [WAITING_B], created := 2, trace := [Emission("a", Started), Emission("b", Queued)])
  const DEFERRED := AFTER_B.(
    booker := map["x" := Item("a", 1), "y" := Item("b", 1)], queue := [WAITING_B.(holds := true)])
  const A_DONE := DEFERRED.(
    booker := map["y" := Item("b", 1)], active := map[], ended := multiset{"a"},
    trace := [Emission("a", Started), Emission("b", Queued), Emission("a", Done)])
  const B_STARTED := A_DONE.(
    booker := map["y" := Item("b", 2)], active := map["b" := RUNNING_B], queue := [],
    trace := [Emission("a", Started), Emission("b", Queued), Emission("a", Done), Emission("b", Started)],
    surplus := multiset{"y"})
  const B_DONE := B_STARTED.(
    booker := map["y" := Item("b", 1)], active := map[], ended := multiset{"a", "b"},
    trace := [Emission("a", Started), Emission("b", Queued), Emission("a", Done), Emission("b", Started),
              Emission("b", Done)])

  const ENVS: string -> Env := _ => FINE

  lemma OneGranted(m: Bookings, storage: string, client: string)
    requires storage !in m
    ensures Granted(m, [storage], client) == m[storage := Item(client, 1)]
  {
    assert multiset([storage])[storage] == 1;
  }

  // Starting a sync of one free storage whose client is free.
  lemma StartOne(st: State, p: SyncProfile, storage: string)
    requires st.queue == [] && !st.backup.on && p.name !in st.active && storage !in st.booker
    requires p.enabled && p.valid && !p.online && p.client.Some? && !ClientActive(st, p.client.value)
    requires BackendNames(p.storages) == [storage]
    ensures Step(st, Start(p.name, false, Some(p), FINE)) ==
            st.(booker := st.booker[storage := Item(p.name, 1)],
                active := st.active[p.name := Session(p, false, true, false, false, true)],
                created := st.created + 1, trace := st.trace + [Emission(p.name, Started)])
  {
    hide BackendNames, Granted, ClientActive;
    var s := Session(p, false, false, false, false, false);
    var counted := st.(created := st.created + 1);
    SameClients(st, counted);
    assert multiset([storage])[storage] == 1;
    OneGranted(st.booker, storage, p.name);
    assert ReserveFor(counted, s) ==
           (counted.(booker := st.booker[storage := Item(p.name, 1)]), s.(holds := true), true);
  }

  // Starting a sync whose client is free and whose one storage is taken.
  lemma StartTaken(st: State, p: SyncProfile, storage: string)
    requires !st.backup.on && p.name !in st.active && !IsQueued(st.queue, p.name)
    requires storage in st.booker && st.booker[storage].client != p.name
    requires p.enabled && p.valid && p.client.Some? && !ClientActive(st, p.client.value)
    requires BackendNames(p.storages) == [storage]
    ensures StartSync(st, p.name, false, Some(p), FINE) ==
            (st.(queue := st.queue + [Session(p, false, false, false, false, false)],
                 created := st.created + 1, trace := st.trace + [Emission(p.name, Queued)]), true)
  {
    hide BackendNames, Granted, ClientActive, IsQueued;
    SameClients(st, st.(created := st.created + 1));
    assert storage in [storage] && !Available(st.booker, storage, p.name);
  }

  lemma StartA()
    ensures Step(INITIAL, Start("a", false, Some(A), FINE)) == AFTER_A
  {
    OneBackend("a", "x");
    hide BackendNames, Step;
    StartOne(INITIAL, A, "x");
  }

  lemma QueueB()
    ensures Step(AFTER_A, Start("b", false, Some(B), FINE)) == AFTER_B
  {
    hide BackendNames;
    assert AFTER_A.active["a"].profile.client == Some("client");
    assert ClientActive(AFTER_A, "client");
  }

  lemma DeferB()
    ensures Step(AFTER_B, StorageReleased(ENVS)) == DEFERRED
  {
    OneBackend("b", "y");
    hide BackendNames;
    assert Granted(AFTER_B.booker, ["y"], "b") == DEFERRED.booker;
    assert DEFERRED.active["a"].profile.client == Some("client");
    var rest := AFTER_B.(queue := AFTER_B.queue[1..]);
    var (st1, s1, ok) := ReserveFor(rest, WAITING_B);
    assert rest.queue == [] && ok && s1 == WAITING_B.(holds := true);
    assert ClientActive(st1, "client");
    assert st1.(queue := [s1] + st1.queue) == DEFERRED;
    assert StartNextSync(AFTER_B, ENVS) == (DEFERRED, false);
  }

  lemma FinishA()
    ensures var s := RUNNING_A.(finished := true);
            Emit(Retire(DEFERRED.(active := map["a" := s]), "a", Done, {}), "a", Done) == A_DONE
  {
    OneBackend("a", "x");
    hide BackendNames, EnableStorages;
    assert Released(DEFERRED.booker, ["x"]) == A_DONE.booker;
  }

  lemma BookB()
    ensures var (st1, s1, ok) := ReserveFor(A_DONE.(queue := []), WAITING_B.(holds := true));
            ok && s1 == WAITING_B.(holds := true) && st1 == B_STARTED.(active := map[], trace := A_DONE.trace)
  {
    OneBackend("b", "y");
    hide BackendNames;
    assert Granted(A_DONE.booker, ["y"], "b") == B_STARTED.booker;
  }

  lemma TakeB()
    ensures StartNextSync(A_DONE, ENVS) == (B_STARTED, true)
  {
    BookB();
    hide BackendNames, ReserveFor, Cleanup;
    var s := WAITING_B.(holds := true);
    assert A_DONE.queue == [s] && A_DONE.queue[1..] == [];
    var (st1, s1, _) := ReserveFor(A_DONE.(queue := []), s);
    assert !ClientActive(st1, "client");
    var (st2, _, started) := StartSyncNow(st1, s1, FINE);
    assert started && Emit(st2, "b", Started) == B_STARTED;
  }

  lemma StartB()
    ensures Drain(A_DONE, ENVS) == B_STARTED
  {
    TakeB();
    hide BackendNames, ReserveFor, StartSyncNow, ClientActive;
    assert StartNextSync(B_STARTED, ENVS) == (B_STARTED, false);
  }

  lemma FinishB()
    ensures Step(B_STARTED, Signalled("b", Success({}), ENVS)) == B_DONE
  {
    OneBackend("b", "y");
    hide BackendNames, EnableStorages;
    assert Released(B_STARTED.booker, ["y"]) == B_DONE.booker;
    var s := RUNNING_B.(finished := true);
    var st := B_STARTED.(active := map["b" := s]);
    assert B_STARTED.active["b" := s] == st.active;
    assert Emit(Retire(st, "b", Done, {}), "b", Done) == B_DONE;
    assert StartNextSync(B_DONE, ENVS) == (B_DONE, false);
  }

  lemma SignalA()
    ensures Step(DEFERRED, Signalled("a", Success({}), ENVS)) == B_STARTED
  {
    FinishA();
    StartB();
    hide Retire, Drain;
    var s := RUNNING_A.(finished := true);
    assert DEFERRED.active["a" := s] == map["a" := s];
  }

  ghost const LEAK: seq<Event> := [
    Start("a", false, Some(A), FINE), Start("b", false, Some(B), FINE), StorageReleased(ENVS),
    Signalled("a", Success({}), ENVS), Signalled("b", Success({}), ENVS)]

  // One more slot in front of what is left of the run.
  lemma ReachesFrom(st: State, es: seq<Event>, k: nat, st1: State)
    requires k < |es| && QueueHasClients(st.queue) && Allowed(st, es[k])
    requires Reaches(Step(st, es[k]), es[k + 1..], st1)
    ensures Reaches(st, es[k..], st1)
  {
    assert es[k..][1..] == es[k + 1..];
  }

  lemma BookingsCanOutliveEverySession()
    ensures Reaches(INITIAL, LEAK, B_DONE) && Quiet(B_DONE) && B_DONE.booker == map["y" := Item("b", 1)]
  {
    StartA();
    QueueB();
    DeferB();
    SignalA();
    FinishB();
    hide Step;
    assert Reaches(B_DONE, LEAK[5..], B_DONE);
    ReachesFrom(B_STARTED, LEAK, 4, B_DONE);
    ReachesFrom(DEFERRED, LEAK, 3, B_DONE);
    ReachesFrom(AFTER_B, LEAK, 2, B_DONE);
    ReachesFrom(AFTER_A, LEAK, 1, B_DONE);
    ReachesFrom(INITIAL, LEAK, 0, B_DONE);
    assert LEAK[0..] == LEAK;
  }

  // -------------------------------------------------------------------------------------------
  // A reservation given back by the wrong session
  // -------------------------------------------------------------------------------------------

  lemma OthersAreCovered(m: Bookings, held: Holdings, external: multiset<string>, surplus: multiset<string>,
                         name: string)
    requires Balanced(m, held, external, surplus)
    ensures Covered(m, held - {name})
  {
    forall n, s | n in held - {name} && s in held[n] ensures s in m && m[s].client == n && m[s].count >= held[n][s] {
      BalancedCovers(m, held, external, surplus, n, s);
    }
  }

  lemma RetireReleases(st: State, name: string, acquired: set<string>)
    requires name in st.active && st.active[name].holds
    ensures Retire(st, name, Done, acquired).booker
         == Released(st.booker, BackendNames(EnableStorages(st.active[name].profile.storages, acquired)))
  {
    hide BackendNames, EnableStorages, Released;
  }

  lemma ReleaseSparesOthersIff(m: Bookings, held: Holdings, external: multiset<string>, surplus: multiset<string>,
                               released: seq<string>, name: string)
    requires Balanced(m, held, external, surplus)
    ensures var others := held - {name};
            Covered(Released(m, released), others) <==>
            forall n, s | n in others && s in others[n] :: multiset(released)[s] <= external[s] + surplus[s]
  {
    var others := held - {name};
    assert Covered(m, others);
    ReleaseKeepsCoverIff(m, others, released);
    hide Released, Covered;
    forall n, s | n in others && s in others[n]
      ensures multiset(released)[s] + others[n][s] <= Count(m, s) <==> multiset(released)[s] <= external[s] + surplus[s]
    {
      BalancedCovers(m, held, external, surplus, n, s);
    }
    hide Balanced;
  }

  // The list released at the end of a successful sync is recomputed after the acquired storages
  // were switched on, so it can contain a back-end that another session booked. Whether the other
  // sessions stay covered can be read off the map before the session finishes: each count must
  // reach for what is released and for what the other needs. In terms of the books, the releases
  // must be paid for by bookings that are no session's.
  lemma FinishSparesOthersIff(st: State, name: string, acquired: set<string>)
    requires Sound(st) && name in st.active
    ensures var released := BackendNames(EnableStorages(st.active[name].profile.storages, acquired));
            var others := Held(Live(st.active, st.queue)) - {name};
            && (Covered(Retire(st, name, Done, acquired).booker, others) <==>
                forall n, s | n in others && s in others[n] ::
                  multiset(released)[s] + others[n][s] <= Count(st.booker, s))
            && (Covered(Retire(st, name, Done, acquired).booker, others) <==>
                forall n, s | n in others && s in others[n] :: multiset(released)[s] <= st.external[s] + st.surplus[s])
  {
    SoundMeansStarted(st, name);
    RetireReleases(st, name, acquired);
    hide BackendNames, EnableStorages, Held, Live, QueueShape, ActiveShape, Retire;
    var released := BackendNames(EnableStorages(st.active[name].profile.storages, acquired));
    var held := Held(Live(st.active, st.queue));
    ReleaseSparesOthersIff(st.booker, held, st.external, st.surplus, released, name);
    hide Released, Balanced;
    assert Covered(st.booker, held - {name}) by { OthersAreCovered(st.booker, held, st.external, st.surplus, name); }
    ReleaseKeepsCoverIff(st.booker, held - {name}, released);
  }

  // The run: "d" syncs the calendar and has its contacts switched off, "b" syncs contacts with another
  // client. The plug-in of "d" acquires the contacts, so they are switched on and released when it
  // is done, and "e" can book the contacts while "b" still runs on them.
  const CALENDAR := Storage("hcalendar", "hcalendar", true)
  const CONTACTS_OFF := Storage("hcontacts", "hcontacts", false)
  const CONTACTS := Storage("hcontacts", "hcontacts", true)
  const D := SyncProfile("d", Some("other"), [CALENDAR, CONTACTS_OFF], true, true, false)
  const C := OneStorage("b", "hcontacts")
  const E := OneStorage("e", "hcontacts").(client := Some("third"))
  const RUNNING_D := Session(D, false, true, false, false, true)
  const RUNNING_C := Session(C, false, true, false, false, true)
  const RUNNING_E := Session(E, false, true, false, false, true)

  const D_RUNS := INITIAL.(
    booker := map["hcalendar" := Item("d", 1)], active := map["d" := RUNNING_D], created := 1,
    trace := [Emission("d", Started)])
  const BOTH_RUN := D_RUNS.(
    booker := map["hcalendar" := Item("d", 1), "hcontacts" := Item("b", 1)],
    active := map["d" := RUNNING_D]["b" := RUNNING_C], created := 2,
    trace := [Emission("d", Started), Emission("b", Started)])
  const FREED := BOTH_RUN.(
    booker := map[], active := map["b" := RUNNING_C], ended := multiset{"d"},
    trace := [Emission("d", Started), Emission("b", Started), Emission("d", Done)])
  const SHARED := FREED.(
    booker := map["hcontacts" := Item("e", 1)], active := map["b" := RUNNING_C]["e" := RUNNING_E], created := 3,
    trace := [Emission("d", Started), Emission("b", Started), Emission("d", Done), Emission("e", Started)])

  ghost const BOTH_START: seq<Event> := [Start("d", false, Some(D), FINE), Start("b", false, Some(C), FINE)]

  lemma CalendarAnd(s: Storage)
    requires s.name == s.backend == "hcontacts"
    ensures BackendNames([CALENDAR, s]) == ["hcalendar"] + if s.enabled then ["hcontacts"] else []
  {
    var ss, names := [CALENDAR, s], ["hcalendar", "hcontacts"];
    assert ss[1..] == [s] && ss[1..][1..] == [];
    assert Names(ss[1..]) == ["hcontacts"] && Names(ss) == names;
    assert names[1..] == ["hcontacts"] && names[1..][1..] == [];
    assert SubProfile(ss[1..], "hcontacts") == Some(s);
    assert "hcalendar" != "hcontacts" by { assert "hcalendar"[2] != "hcontacts"[2]; }
    assert SubProfile(ss, "hcontacts") == Some(s) && SubProfile(ss, "hcalendar") == Some(CALENDAR);
    assert EnabledBackends(ss, names[1..]) == if s.enabled then ["hcontacts"] else [];
  }

  lemma TwoBackends()
    ensures BackendNames(D.storages) == ["hcalendar"]
    ensures EnableStorages(D.storages, {"hcontacts"}) == [CALENDAR, CONTACTS]
    ensures BackendNames([CALENDAR, CONTACTS]) == ["hcalendar", "hcontacts"]
  {
    CalendarAnd(CONTACTS);
    CalendarAnd(CONTACTS_OFF);
    hide BackendNames;
    var off := [CALENDAR, CONTACTS_OFF];
    assert off[1..] == [CONTACTS_OFF] && off[1..][1..] == [];
    assert {"hcontacts"} - {"hcalendar"} == {"hcontacts"};
    assert EnableStorages(off[1..], {"hcontacts"}) == [CONTACTS];
  }

  lemma StartD()
    ensures Step(INITIAL, BOTH_START[0]) == D_RUNS
  {
    TwoBackends();
    hide BackendNames, Step;
    StartOne(INITIAL, D, "hcalendar");
  }

  lemma StartC()
    ensures Step(D_RUNS, BOTH_START[1]) == BOTH_RUN
  {
    OneBackend("b", "hcontacts");
    hide BackendNames, Step;
    assert !ClientActive(D_RUNS, "client");
    StartOne(D_RUNS, C, "hcontacts");
    assert D_RUNS.active["b" := RUNNING_C] == BOTH_RUN.active;
    assert D_RUNS.booker["hcontacts" := Item("b", 1)] == BOTH_RUN.booker;
  }

  lemma BothRun()
    ensures Reaches(INITIAL, BOTH_START, BOTH_RUN)
  {
    StartD();
    StartC();
    hide Step;
    assert Reaches(BOTH_RUN, BOTH_START[2..], BOTH_RUN);
    ReachesFrom(D_RUNS, BOTH_START, 1, BOTH_RUN);
    ReachesFrom(INITIAL, BOTH_START, 0, BOTH_RUN);
    assert BOTH_START[0..] == BOTH_START;
  }

  lemma RetireD()
    ensures var s := RUNNING_D.(finished := true);
            var st := BOTH_RUN.(active := BOTH_RUN.active["d" := s]);
            Emit(Retire(st, "d", Done, {"hcontacts"}), "d", Done) == FREED
  {
    TwoBackends();
    hide BackendNames, EnableStorages;
    var s := RUNNING_D.(finished := true);
    var st := BOTH_RUN.(active := BOTH_RUN.active["d" := s]);
    assert st.active["d"] == s && st.active - {"d"} == FREED.active;
    assert multiset(["hcalendar", "hcontacts"])["hcontacts"] == 1;
    assert multiset(["hcalendar", "hcontacts"])["hcalendar"] == 1;
    assert Released(BOTH_RUN.booker, ["hcalendar", "hcontacts"]) == map[];
  }

  lemma FinishD()
    ensures Step(BOTH_RUN, Signalled("d", Success({"hcontacts"}), ENVS)) == FREED
  {
    RetireD();
    hide Retire, ReserveFor, StartSyncNow;
    assert BOTH_RUN.active["d"] == RUNNING_D;
    assert StartNextSync(FREED, ENVS) == (FREED, false);
  }

  lemma StartE()
    ensures Step(FREED, Start("e", false, Some(E), FINE)) == SHARED
  {
    OneBackend("e", "hcontacts");
    hide BackendNames, Step;
    assert !ClientActive(FREED, "third");
    StartOne(FREED, E, "hcontacts");
  }

  // After an allowed run, one success that switches a storage on leaves "b" running on contacts that
  // nobody has booked, and the next start puts two sessions on them.
  lemma EnablingCanFreeAnothersStorage()
    ensures Reaches(INITIAL, BOTH_START, BOTH_RUN)
    ensures var freed := Step(BOTH_RUN, Signalled("d", Success({"hcontacts"}), ENVS));
            && "b" in freed.active && "hcontacts" in Backends(freed.active["b"]) && "hcontacts" !in freed.booker
            && QueueHasClients(freed.queue)
            && var shared := Step(freed, Start("e", false, Some(E), FINE));
               && "b" in shared.active && "e" in shared.active
               && "hcontacts" in Backends(shared.active["b"]) && "hcontacts" in Backends(shared.active["e"])
  {
    BothRun();
    FinishD();
    StartE();
    OneBackend("b", "hcontacts");
    OneBackend("e", "hcontacts");
    hide Step, BackendNames, Reaches;
    assert Backends(RUNNING_C) == ["hcontacts"] == Backends(RUNNING_E);
  }
}
