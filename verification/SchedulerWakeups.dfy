/** Whether a sync that could start is left waiting with nobody about to try it. */
module SchedulerWakeups {
  import opened Wrappers
  import opened StorageBooking
  import opened SyncProfiles
  import opened Scheduler
  import opened SchedulerInvariant
  import opened SchedulerTheorems
  import opened SchedulerResults
  import opened SchedulerLimits

  // The head of this queue would be started with these bookings.
  ghost predicate Ready(q: seq<Session>, booker: Bookings, st: State) {
    && q != []
    && AllAvailable(booker, Backends(q[0]), q[0].profile.name)
    && (q[0].profile.client.Some? ==> !ClientActive(st, q[0].profile.client.value))
  }

  lemma StuckIsNotReady(st: State)
    ensures Stuck(st) <==> st.backup.on || !Ready(st.queue, st.booker, st)
  {}

  // What a slot does that lets the head start although it could not before, read off the state before.
  ghost predicate LetsHeadStart(st: State, e: Event) {
    match e
    case BackupFinish => Ready(st.queue, st.booker, st)
    case Give(names) => !st.backup.on && Ready(st.queue, Released(st.booker, names), st)
    case Abort(name, _, _) =>
      && !st.backup.on && name !in st.active && IsQueued(st.queue, name)
      && var i := IndexOf(st.queue, name);
         var s := st.queue[i];
         Ready(st.queue[..i] + st.queue[i + 1..],
               if s.holds then Released(st.booker, Backends(s)) else st.booker, st)
    case _ => false
  }

  lemma AttemptEndsStuck(st: State, envs: string -> Env)
    requires QueueHasClients(st.queue)
    ensures !StartNextSync(st, envs).1 ==> Stuck(StartNextSync(st, envs).0)
  {
    hide BackendNames, Granted, Released, StartSyncNow, Cleanup;
  }

  // A slot that drains leaves nobody waiting who could start.
  lemma {:induction false} DrainEndsStuck(st: State, envs: string -> Env)
    requires QueueHasClients(st.queue)
    ensures Stuck(Drain(st, envs))
    decreases |st.queue|
  {
    AttemptEndsStuck(st, envs);
    hide StartNextSync, Stuck;
    var (st1, again) := StartNextSync(st, envs);
    if again {
      DrainEndsStuck(st1, envs);
    }
  }

  lemma FinishEndsStuck(st: State, name: string, status: Status, acquired: set<string>, envs: string -> Env)
    requires QueueHasClients(st.queue)
    ensures Stuck(OnSessionFinished(st, name, status, acquired, envs))
  {
    hide Retire, Drain, Stuck, QueueHasClients;
    assert Retire(st, name, status, acquired).queue == st.queue by { RetireFrame(st, name, status, acquired); }
    DrainEndsStuck(Emit(Retire(st, name, status, acquired), name, status), envs);
  }

  lemma ActiveGrows(st: State, st1: State)
    requires forall n | n in st.active :: n in st1.active && st1.active[n].profile == st.active[n].profile
    ensures forall client | ClientActive(st, client) :: ClientActive(st1, client)
  {
    forall client | ClientActive(st, client) ensures ClientActive(st1, client) {
      var n :| n in st.active && st.active[n].profile.client == Some(client);
      assert st1.active[n].profile.client == Some(client);
    }
  }

  // A session that changes its flags keeps its client busy.
  lemma FlagsKeepStuck(st: State, name: string, s: Session)
    requires Stuck(st) && name in st.active && s.profile == st.active[name].profile
    ensures Stuck(st.(active := st.active[name := s]))
  {
    hide Backends, AllAvailable;
    var st1 := st.(active := st.active[name := s]);
    ActiveGrows(st, st1);
  }

  // What is not available to somebody does not become so by another's booking.
  lemma GrantKeepsUnavailable(m: Bookings, names: seq<string>, client: string, wanted: seq<string>, other: string)
    requires AllAvailable(m, names, client) && !AllAvailable(m, wanted, other)
    ensures !AllAvailable(Granted(m, names, client), wanted, other)
  {
    var s :| s in wanted && !Available(m, s, other);
    GrantedAt(m, names, client, s);
    assert !Available(Granted(m, names, client), s, other);
  }

  lemma DeliverKeepsStuck(st: State, name: string, signal: Signal, envs: string -> Env)
    requires QueueHasClients(st.queue) && Stuck(st) && name in st.active
    ensures Stuck(Deliver(st, name, signal, envs))
  {
    hide OnSessionFinished, Stuck;
    var (s, announced) := React(st.active[name], signal);
    FlagsKeepStuck(st, name, s);
    if announced.Some? {
      FinishEndsStuck(st.(active := st.active[name := s]), name, announced.value, AcquiredBy(signal), envs);
    }
  }

  lemma AbortActiveKeepsStuck(st: State, name: string, prompt: Option<Signal>, envs: string -> Env)
    requires QueueHasClients(st.queue) && Stuck(st) && name in st.active
    ensures Stuck(AbortActive(st, name, prompt, envs))
  {
    hide OnSessionFinished, Deliver, Stuck;
    if !st.active[name].started {
      FinishEndsStuck(st, name, Error, {}, envs);
    } else {
      var s := st.active[name].(aborted := true);
      FlagsKeepStuck(st, name, s);
      if prompt.Some? {
        DeliverKeepsStuck(st.(active := st.active[name := s]), name, prompt.value, envs);
      }
    }
  }

  // The state after a fresh start, as far as it matters to the head.
  lemma StartFreshIs(st: State, name: string, s: Session, env: Env)
    requires WellCounted(st.booker) && !s.holds
    ensures var st1 := StartFresh(st, name, s, env).0;
            var names := Backends(s);
            && st1.backup == st.backup
            && (|| (st1.queue == st.queue && st1.booker == st.booker && st1.active == st.active)
                || (st1.queue == st.queue + [s] && st1.booker == st.booker && st1.active == st.active
                    && ((s.profile.client.Some? && ClientActive(st, s.profile.client.value))
                        || !AllAvailable(st.booker, names, s.profile.name)))
                || (st1.queue == st.queue && AllAvailable(st.booker, names, s.profile.name)
                    && st1.booker == Granted(st.booker, names, s.profile.name)
                    && s.profile.name in st1.active
                    && st1.active == st.active[s.profile.name := st1.active[s.profile.name]]))
  {
    hide BackendNames, AllAvailable, Granted, Released, ClientActive, WellCounted, StartSyncNow;
    if AllAvailable(st.booker, Backends(s), s.profile.name) {
      ReleaseUndoesReserve(st.booker, Backends(s), s.profile.name);
      var (st1, s1, _) := ReserveFor(st, s);
      StartNowFrame(st1, s1, env);
    }
  }

  lemma StartFreshKeepsStuck(st: State, name: string, s: Session, env: Env)
    requires Stuck(st) && WellCounted(st.booker) && !s.holds && s.profile.name !in st.active
    ensures Stuck(StartFresh(st, name, s, env).0)
  {
    StartFreshIs(st, name, s, env);
    hide StartFresh, Backends, AllAvailable, Granted, ClientActive;
    var st1 := StartFresh(st, name, s, env).0;
    ActiveGrows(st, st1);
    if st1.active == st.active {
      SameClients(st, st1);
    }
    if st.queue != [] {
      assert st1.queue[0] == st.queue[0];
      var h := st.queue[0];
      if AllAvailable(st.booker, Backends(s), s.profile.name) && !AllAvailable(st.booker, Backends(h), h.profile.name) {
        GrantKeepsUnavailable(st.booker, Backends(s), s.profile.name, Backends(h), h.profile.name);
      }
    }
  }

  lemma SameForHead(st: State, st1: State)
    requires st1.queue == st.queue && st1.booker == st.booker && st1.active == st.active && st1.backup == st.backup
    ensures Stuck(st1) <==> Stuck(st)
  {
    hide AllAvailable, Backends;
  }

  lemma SoundMeansCounted(st: State)
    requires Sound(st)
    ensures WellCounted(st.booker)
  {
    hide ActiveShape, QueueShape, Live, Held;
  }

  lemma StartKeepsStuck(st: State, name: string, scheduled: bool, found: Option<SyncProfile>, env: Env)
    requires Stuck(st) && Sound(st) && (found.Some? ==> found.value.name == name)
    ensures Stuck(StartSync(st, name, scheduled, found, env).0)
  {
    hide StartFresh, Sound, Stuck, WellCounted, IsQueued;
    SoundMeansCounted(st);
    var st1 := StartSync(st, name, scheduled, found, env).0;
    if st.backup.on || name in st.active || IsQueued(st.queue, name) || found.None? || !found.value.enabled {
      SameForHead(st, st1);
    } else {
      var counted := st.(created := st.created + 1);
      SameForHead(st, counted);
      StartFreshKeepsStuck(counted, name, Session(found.value, scheduled, false, false, false, false), env);
    }
  }

  lemma RequestKeepsStuck(st: State, names: seq<string>, client: string)
    requires Stuck(st)
    ensures Stuck(RequestStorages(st, names, client))
  {
    hide Backends, AllAvailable, Granted, ClientActive;
    SameClients(st, RequestStorages(st, names, client));
    if st.queue != [] && AllAvailable(st.booker, names, client) {
      var h := st.queue[0];
      if !AllAvailable(st.booker, Backends(h), h.profile.name) {
        GrantKeepsUnavailable(st.booker, names, client, Backends(h), h.profile.name);
      }
    }
  }

  lemma OthersEndStuckIff(st: State, e: Event)
    requires QueueHasClients(st.queue) && Stuck(st)
    requires e.BackupFinish? || e.Give? || (e.Abort? && e.name !in st.active)
    ensures !Stuck(Step(st, e)) <==> LetsHeadStart(st, e)
  {
    hide Backends, AllAvailable, Released, ClientActive;
    SameClients(st, Step(st, e));
    StuckIsNotReady(Step(st, e));
  }

  lemma BackupIsOn(st: State, order: seq<string>, prompts: map<string, Signal>)
    requires QueueHasClients(st.queue)
    ensures BackupStarts(st, order, prompts).backup.on
  {
    hide AbortAll;
  }

  /** From a state where nobody waiting could start, a slot leads to one where somebody could exactly
      in three cases: the backup is over, an outside booking is released, or an abort took a waiting
      session away; and then exactly if that lets the new head start. Only the release is followed by
      an attempt: the other two leave the head waiting for the next session to finish. */
  lemma HeadIsLeftWaitingIff(st: State, e: Event)
    requires Good(st) && QueueHasClients(st.queue) && Allowed(st, e) && Stuck(st)
    ensures !Stuck(Step(st, e)) <==> LetsHeadStart(st, e)
  {
    match e {
      case Start(name, scheduled, found, env) => StartKeepsStuck(st, name, scheduled, found, env);
      case Signalled(name, signal, envs) => if name in st.active { DeliverKeepsStuck(st, name, signal, envs); }
      case StaleFinish(name, status, acquired, envs) => FinishEndsStuck(st, name, status, acquired, envs);
      case Abort(name, prompt, envs) =>
        if name in st.active { AbortActiveKeepsStuck(st, name, prompt, envs); } else { OthersEndStuckIff(st, e); }
      case Request(names, client) => RequestKeepsStuck(st, names, client);
      case Give(names) => OthersEndStuckIff(st, e);
      case StorageReleased(envs) => DrainEndsStuck(st, envs);
      case BackupStart(order, prompts) => BackupIsOn(st, order, prompts);
      case BackupFinish => OthersEndStuckIff(st, e);
    }
  }

  // Some slot of the run does.
  ghost predicate RunLetsHeadStart(st: State, es: seq<Event>)
    decreases |es|
  {
    && es != [] && QueueHasClients(st.queue)
    && (LetsHeadStart(st, es[0]) || RunLetsHeadStart(Step(st, es[0]), es[1..]))
  }

  /** Over whole runs: a waiting sync that could start is there only because of such a slot. */
  lemma {:induction false} NobodyIsForgotten(st: State, es: seq<Event>, st1: State)
    requires Good(st) && Stuck(st) && Reaches(st, es, st1)
    ensures !RunLetsHeadStart(st, es) ==> Stuck(st1)
    decreases |es|
  {
    hide Good, Stuck, Step, Allowed, LetsHeadStart, QueueHasClients;
    if es != [] && !RunLetsHeadStart(st, es) {
      HeadIsLeftWaitingIff(st, es[0]);
      StepKeepsGood(st, es[0]);
      NobodyIsForgotten(Step(st, es[0]), es[1..], st1);
    }
  }

  // The run: "b" waits for the client of "a", a backup starts and "a" ends at once, the backup is over.
  const SUSPENDED := AFTER_B.(
    booker := map[], active := map[], backup := Backup(true, false, 1, 1, 0), ended := multiset{"a"},
    trace := [Emission("a", Started), Emission("b", Queued), Emission("a", Aborted)])
  const FORGOTTEN := SUSPENDED.(backup := Backup(false, false, 2, 2, 0))

  ghost const BACKUP_RUN: seq<Event> := [
    Start("a", false, Some(A), FINE), Start("b", false, Some(B), FINE),
    BackupStart(["a"], map["a" := Success({})]), BackupFinish]

  const ASKED := AFTER_B.(backup := Backup(true, true, 1, 0, 0))
  const ABORTED_A := RUNNING_A.(aborted := true)
  const GONE := ASKED.(active := map["a" := ABORTED_A.(finished := true)])

  lemma RetireA()
    ensures Retire(GONE, "a", Aborted, {}) == SUSPENDED.(trace := AFTER_B.trace)
  {
    OneBackend("a", "x");
    hide BackendNames, EnableStorages;
    assert multiset(["x"])["x"] == 1;
    assert GONE.active - {"a"} == map[];
  }

  lemma AbortA()
    ensures AbortActive(ASKED, "a", Some(Success({})), _ => Env(false, false, false, false)) == SUSPENDED
  {
    RetireA();
    hide Retire;
    var told := ASKED.(active := ASKED.active["a" := ABORTED_A]);
    assert told.active["a" := ABORTED_A.(finished := true)] == GONE.active;
    assert StartNextSync(SUSPENDED, _ => Env(false, false, false, false)) == (SUSPENDED, false);
  }

  lemma SuspendA()
    ensures Step(AFTER_B, BACKUP_RUN[2]) == SUSPENDED
  {
    AbortA();
    hide AbortActive;
    var prompts := map["a" := Success({})];
    assert |ASKED.active| == 1 && ["a"][1..] == [];
    assert AbortAll(ASKED, ["a"], prompts) == AbortAll(SUSPENDED, [], prompts);
  }

  lemma EndBackup()
    ensures Step(SUSPENDED, BACKUP_RUN[3]) == FORGOTTEN
  {}

  lemma BackupRunIsAllowed()
    ensures Allowed(INITIAL, BACKUP_RUN[0]) && Allowed(AFTER_A, BACKUP_RUN[1])
    ensures Allowed(AFTER_B, BACKUP_RUN[2]) && Allowed(SUSPENDED, BACKUP_RUN[3])
  {
    assert (set n | n in ["a"]) == AFTER_B.active.Keys;
  }

  lemma BackupRunReaches()
    ensures Reaches(INITIAL, BACKUP_RUN, FORGOTTEN)
  {
    StartA();
    QueueB();
    SuspendA();
    EndBackup();
    BackupRunIsAllowed();
    hide Step, Allowed;
    assert Reaches(FORGOTTEN, BACKUP_RUN[4..], FORGOTTEN);
    ReachesFrom(SUSPENDED, BACKUP_RUN, 3, FORGOTTEN);
    ReachesFrom(AFTER_B, BACKUP_RUN, 2, FORGOTTEN);
    ReachesFrom(AFTER_A, BACKUP_RUN, 1, FORGOTTEN);
    ReachesFrom(INITIAL, BACKUP_RUN, 0, FORGOTTEN);
    assert BACKUP_RUN[0..] == BACKUP_RUN;
  }

  /** A sync that could start waits although nothing runs whose end would start it. */
  lemma BackupCanForgetTheQueue()
    ensures Reaches(INITIAL, BACKUP_RUN, FORGOTTEN)
    ensures FORGOTTEN.active == map[] && FORGOTTEN.queue == [WAITING_B] && !Stuck(FORGOTTEN)
  {
    BackupRunReaches();
  }

  // The run: an outside caller has booked two storages, "a" waits for one of them and "b", behind it,
  // for the other. That of "b" is given back and the queue is tried, but "a" is its head; then "a" is
  // aborted.
  const WAITING_A := Session(A, false, false, false, false, false)
  const TAKEN := INITIAL.(
    booker := map["x" := Item("other", 1), "y" := Item("other", 1)], external := multiset{"x", "y"})
  const A_WAITS := TAKEN.(queue := [WAITING_A], created := 1, trace := [Emission("a", Queued)])
  const B_WAITS := A_WAITS.(
    queue := [WAITING_A, WAITING_B], created := 2, trace := [Emission("a", Queued), Emission("b", Queued)])
  const ONE_GIVEN := B_WAITS.(booker := map["x" := Item("other", 1)], external := multiset{"x"})
  const B_LEFT := ONE_GIVEN.(
    queue := [WAITING_B], ended := multiset{"a"},
    trace := [Emission("a", Queued), Emission("b", Queued), Emission("a", Cancelled)])

  ghost const ABORT_RUN: seq<Event> := [
    Request(["x", "y"], "other"), Start("a", false, Some(A), FINE), Start("b", false, Some(B), FINE),
    Give(["y"]), StorageReleased(ENVS), Abort("a", None, ENVS)]

  lemma TakeBoth()
    ensures Step(INITIAL, ABORT_RUN[0]) == TAKEN
  {
    var names := ["x", "y"];
    assert multiset(names) == multiset{"x", "y"};
    assert Granted(map[], names, "other") == TAKEN.booker;
  }

  lemma BothWait()
    ensures Step(TAKEN, ABORT_RUN[1]) == A_WAITS && Step(A_WAITS, ABORT_RUN[2]) == B_WAITS
  {
    OneBackend("a", "x");
    OneBackend("b", "y");
    hide BackendNames, StartSync;
    assert !IsQueued(A_WAITS.queue, "b");
    StartTaken(TAKEN, A, "x");
    StartTaken(A_WAITS, B, "y");
  }

  lemma GiveOne()
    ensures Step(B_WAITS, ABORT_RUN[3]) == ONE_GIVEN
  {
    var names := ["y"];
    assert multiset(names)["y"] == 1 && multiset(names)["x"] == 0;
    assert Released(B_WAITS.booker, names) == ONE_GIVEN.booker;
    hide Released;
    assert B_WAITS.external - multiset(names) == ONE_GIVEN.external;
  }

  lemma TryA()
    ensures Step(ONE_GIVEN, ABORT_RUN[4]) == ONE_GIVEN && Stuck(ONE_GIVEN)
  {
    OneBackend("a", "x");
    hide BackendNames;
    assert "x" in ["x"] && !Available(ONE_GIVEN.booker, "x", "a");
  }

  lemma CancelA()
    ensures Step(ONE_GIVEN, ABORT_RUN[5]) == B_LEFT
  {
    hide BackendNames;
    var q := ONE_GIVEN.queue;
    assert q[0].profile.name == "a" && IsQueued(q, "a") && IndexOf(q, "a") == 0;
    assert q[..0] + q[1..] == B_LEFT.queue;
  }

  lemma AbortRunIsAllowed()
    ensures Allowed(INITIAL, ABORT_RUN[0]) && Allowed(TAKEN, ABORT_RUN[1]) && Allowed(A_WAITS, ABORT_RUN[2])
    ensures Allowed(B_WAITS, ABORT_RUN[3]) && Allowed(ONE_GIVEN, ABORT_RUN[4]) && Allowed(ONE_GIVEN, ABORT_RUN[5])
  {
    assert multiset(["y"]) == multiset{"y"};
  }

  lemma AbortRunReaches()
    ensures Reaches(INITIAL, ABORT_RUN, B_LEFT)
  {
    TakeBoth();
    BothWait();
    GiveOne();
    TryA();
    CancelA();
    AbortRunIsAllowed();
    hide Step, Allowed;
    assert Reaches(B_LEFT, ABORT_RUN[6..], B_LEFT);
    ReachesFrom(ONE_GIVEN, ABORT_RUN, 5, B_LEFT);
    ReachesFrom(ONE_GIVEN, ABORT_RUN, 4, B_LEFT);
    ReachesFrom(B_WAITS, ABORT_RUN, 3, B_LEFT);
    ReachesFrom(A_WAITS, ABORT_RUN, 2, B_LEFT);
    ReachesFrom(TAKEN, ABORT_RUN, 1, B_LEFT);
    ReachesFrom(INITIAL, ABORT_RUN, 0, B_LEFT);
    assert ABORT_RUN[0..] == ABORT_RUN;
  }

  /** Aborting the sync at the head leaves one behind it that could start, with nothing active. */
  lemma AbortCanForgetTheQueue()
    ensures Reaches(INITIAL, ABORT_RUN, B_LEFT)
    ensures B_LEFT.active == map[] && B_LEFT.queue == [WAITING_B] && !Stuck(B_LEFT)
  {
    AbortRunReaches();
    OneBackend("b", "y");
    hide Reaches;
    assert Backends(WAITING_B) == ["y"];
  }
}
