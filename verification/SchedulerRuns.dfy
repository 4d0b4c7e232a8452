/** Slots, whole runs, and what they promise. */
module SchedulerRuns {
  import opened Wrappers
  import opened StorageBooking
  import opened SyncProfiles
  import opened Ledger
  import opened Scheduler
  import opened SchedulerInvariant

  // -------------------------------------------------------------------------------------------
  // Every slot keeps the books
  // -------------------------------------------------------------------------------------------

  lemma SoundMeansClients(st: State)
    requires Sound(st)
    ensures QueueHasClients(st.queue)
  {
    QueueShapeApart(st.queue, st.active);
  }

  lemma SoundMeansStarted(st: State, n: string)
    requires Sound(st) && n in st.active
    ensures st.active[n].started && st.active[n].holds
  {
    hide Balanced, Live, QueueShape;
    assert ActiveOk(n, st.active[n]);
  }

  lemma SoundIgnoresTrace(st: State, name: string, status: Status)
    ensures Sound(Emit(st, name, status)) <==> Sound(st)
  {
    hide Balanced, Live, ActiveShape, QueueShape;
  }

  lemma StartFreshKeepsSound(st: State, name: string, s: Session, env: Env)
    requires Sound(WithHand(st, s)) && s.profile.client.Some?
    ensures Sound(StartFresh(st, name, s, env).0)
  {
    hide Sound, BackendNames, AllAvailable, Granted, Released;
    if ClientActive(st, s.profile.client.value) {
      EnqueueKeepsSound(st, s);
      SoundIgnoresTrace(Enqueue(st, s), name, Queued);
    } else if !s.profile.valid || (s.scheduled && (env.lowPower || env.powerSave)) {
      SoundIgnoresTrace(WithHand(st, s), name, Error);
      CleanupKeepsSound(Emit(st, name, Error), s);
    } else {
      ReserveKeepsSound(st, s);
      var (st1, s1, reserved) := ReserveFor(st, s);
      if !reserved {
        EnqueueKeepsSound(st1, s1);
        SoundIgnoresTrace(Enqueue(st1, s1), name, Queued);
      } else {
        StartSyncNowKeepsSound(st1, s1, env);
        var (st2, s2, ok) := StartSyncNow(st1, s1, env);
        if ok {
          SoundIgnoresTrace(st2, name, Started);
        } else {
          SoundIgnoresTrace(WithHand(st2, s2), name, Error);
          CleanupKeepsSound(Emit(st2, name, Error), s2);
        }
      }
    }
  }

  lemma StartSyncKeepsSound(st: State, name: string, scheduled: bool, found: Option<SyncProfile>, env: Env)
    requires Sound(st)
    requires found.Some? ==> found.value.name == name && name != "" && found.value.client.Some?
    ensures Sound(StartSync(st, name, scheduled, found, env).0)
  {
    hide Sound, StartFresh;
    SoundIgnoresTrace(st, name, NotPossible);
    SoundIgnoresTrace(st, name, Queued);
    SoundIgnoresTrace(st, name, Error);
    if !st.backup.on && name !in st.active && !IsQueued(st.queue, name) && found.Some? && found.value.enabled {
      var s := Session(found.value, scheduled, false, false, false, false);
      NewSessionInHand(st, s);
      StartFreshKeepsSound(st.(created := st.created + 1), name, s, env);
    }
  }

  lemma StartNextSyncKeepsSound(st: State, envs: string -> Env)
    requires Sound(st) && QueueHasClients(st.queue)
    ensures Sound(StartNextSync(st, envs).0)
  {
    hide Sound, BackendNames, AllAvailable, Granted, Released;
    if st.queue != [] && !st.backup.on {
      var s := st.queue[0];
      var name := s.profile.name;
      var env := envs(name);
      var rest := st.(queue := st.queue[1..]);
      assert WithHand(rest, s) == st by {
        assert [s] + st.queue[1..] == st.queue;
      }
      if s.scheduled && env.lowPower {
        CleanupKeepsSound(rest, s);
        SoundIgnoresTrace(Cleanup(rest, s, Backends(s)), name, Error);
      } else {
        ReserveKeepsSound(rest, s);
        var (st1, s1, reserved) := ReserveFor(rest, s);
        if reserved && !ClientActive(st1, s.profile.client.value) {
          StartSyncNowKeepsSound(st1, s1, env);
          var (st2, s2, ok) := StartSyncNow(st1, s1, env);
          if ok {
            SoundIgnoresTrace(st2, name, Started);
          } else {
            CleanupKeepsSound(st2, s2);
            SoundIgnoresTrace(Cleanup(st2, s2, Backends(s2)), name, Error);
          }
        }
      }
    }
  }

  lemma {:induction false} DrainKeepsSound(st: State, envs: string -> Env)
    requires Sound(st) && QueueHasClients(st.queue)
    ensures Sound(Drain(st, envs))
    decreases |st.queue|
  {
    hide Sound;
    StartNextSyncKeepsSound(st, envs);
    var (st1, again) := StartNextSync(st, envs);
    if again {
      DrainKeepsSound(st1, envs);
    }
  }

  // The assumption on a finished session: releasing books what was reserved.
  ghost predicate ReleasesWhatItReserved(st: State, name: string, status: Status, acquired: set<string>) {
    name in st.active && status.Done? ==> NothingNewAcquired(st.active[name].profile.storages, acquired)
  }

  lemma SoundIgnoresBackup(st: State, st1: State)
    requires Sound(st) && st1 == st.(backup := st1.backup)
    ensures Sound(st1)
  {
    hide Balanced, Live, ActiveShape, QueueShape;
  }

  lemma RetireKeepsSound(st: State, name: string, status: Status, acquired: set<string>)
    requires Sound(st) && ReleasesWhatItReserved(st, name, status, acquired)
    ensures Sound(Retire(st, name, status, acquired))
  {
    hide Sound, BackendNames, Released;
    if name in st.active {
      var s := st.active[name];
      RetiredInHand(st, name);
      BackendsSurviveEnabling(s.profile.storages, acquired);
      CleanupKeepsSound(st.(active := st.active - {name}), s);
      SoundIgnoresBackup(Cleanup(st.(active := st.active - {name}), s, Backends(s)),
                         Retire(st, name, status, acquired));
    }
  }

  lemma FinishKeepsSound(st: State, name: string, status: Status, acquired: set<string>, envs: string -> Env)
    requires Sound(st) && ReleasesWhatItReserved(st, name, status, acquired) && QueueHasClients(st.queue)
    ensures Sound(OnSessionFinished(st, name, status, acquired, envs))
  {
    hide Sound;
    RetireKeepsSound(st, name, status, acquired);
    SoundIgnoresTrace(Retire(st, name, status, acquired), name, status);
    DrainKeepsSound(Emit(Retire(st, name, status, acquired), name, status), envs);
  }

  // An active session may change its flags, as long as it stays started and keeps its storages.
  lemma ActiveFlagsKeepShape(active: map<string, Session>, name: string, s: Session)
    requires ActiveShape(active) && name in active
    requires s.profile == active[name].profile && s.holds && s.started
    ensures ActiveShape(active[name := s]) && active[name].holds
  {
    var active1 := active[name := s];
    forall n | n in active1 ensures ActiveOk(n, active1[n]) {
      assert ActiveOk(n, active[n]);
    }
  }

  lemma ActiveFlagsKeepSound(st: State, name: string, s: Session)
    requires Sound(st) && name in st.active
    requires s.profile == st.active[name].profile && s.holds && s.started
    ensures Sound(st.(active := st.active[name := s]))
  {
    hide Balanced, BackendNames, Held, Live, ByName, ActiveShape, QueueShape;
    QueueShapeApart(st.queue, st.active);
    var st1 := st.(active := st.active[name := s]);
    QueueShapeLarger(st.queue, st.active, name, s);
    LiveActive(st.active, st.queue, name, s);
    var live := Live(st.active, st.queue);
    LiveActive(st.active, st.queue, name, st.active[name]);
    assert st.active[name := st.active[name]] == st.active;
    HeldAfter(live, name, s);
    HeldAfter(live, name, st.active[name]);
    assert |st1.active| == |st.active| by {
      assert st1.active.Keys == st.active.Keys;
    }
    ActiveFlagsKeepShape(st.active, name, s);
  }

  ghost predicate SignalReleasesWhatItReserved(st: State, name: string, signal: Signal) {
    name in st.active ==> NothingNewAcquired(st.active[name].profile.storages, AcquiredBy(signal))
  }

  // The network came up but the plug-in did not start: the session leaves within the same slot.
  lemma NeverStartedKeepsSound(st: State, name: string, s: Session, status: Status, envs: string -> Env)
    requires Sound(st) && name in st.active && !status.Done?
    requires s == st.active[name].(started := false)
    requires QueueHasClients(st.queue)
    ensures Sound(OnSessionFinished(st.(active := st.active[name := s]), name, status, {}, envs))
  {
    hide Sound, BackendNames, Released, Drain;
    var st1 := st.(active := st.active[name := s]);
    assert st1.active - {name} == st.active - {name};
    assert Retire(st1, name, status, {}) == Retire(st, name, status, {});
    FinishKeepsSound(st, name, status, {}, envs);
  }

  lemma DeliverKeepsSound(st: State, name: string, signal: Signal, envs: string -> Env)
    requires Sound(st) && name in st.active && SignalReleasesWhatItReserved(st, name, signal)
    requires QueueHasClients(st.queue)
    ensures Sound(Deliver(st, name, signal, envs))
  {
    hide Sound, OnSessionFinished;
    SoundMeansStarted(st, name);
    var was := st.active[name];
    var (s, announced) := React(was, signal);
    if s.started {
      ActiveFlagsKeepSound(st, name, s);
      if announced.Some? {
        FinishKeepsSound(st.(active := st.active[name := s]), name, announced.value, AcquiredBy(signal), envs);
      }
    } else {
      NeverStartedKeepsSound(st, name, s, Error, envs);
    }
  }

  lemma AbortActiveKeepsSound(st: State, name: string, prompt: Option<Signal>, envs: string -> Env)
    requires Sound(st) && name in st.active && QueueHasClients(st.queue)
    requires prompt.Some? ==> SignalReleasesWhatItReserved(st, name, prompt.value)
    ensures Sound(AbortActive(st, name, prompt, envs))
  {
    hide Sound, Deliver, OnSessionFinished;
    SoundMeansStarted(st, name);
    var was := st.active[name];
    ActiveFlagsKeepSound(st, name, was.(aborted := true));
    if prompt.Some? {
      DeliverKeepsSound(st.(active := st.active[name := was.(aborted := true)]), name, prompt.value, envs);
    }
  }

  lemma QueuedInHand(st: State, i: nat)
    requires Sound(st) && i < |st.queue|
    ensures Sound(WithHand(st.(queue := st.queue[..i] + st.queue[i + 1..]), st.queue[i]))
  {
    hide Balanced, ActiveShape, QueueShape, ByName;
    QueueWithout(st.queue, i, st.active);
  }

  lemma AbortQueuedKeepsSound(st: State, name: string)
    requires Sound(st)
    ensures Sound(AbortQueued(st, name))
  {
    hide Sound, BackendNames, Released;
    if IsQueued(st.queue, name) {
      var i := IndexOf(st.queue, name);
      QueuedInHand(st, i);
      CleanupKeepsSound(st.(queue := st.queue[..i] + st.queue[i + 1..]), st.queue[i]);
    }
  }

  lemma AbortSyncKeepsSound(st: State, name: string, prompt: Option<Signal>, envs: string -> Env)
    requires Sound(st) && QueueHasClients(st.queue)
    requires prompt.Some? ==> SignalReleasesWhatItReserved(st, name, prompt.value)
    ensures Sound(AbortSync(st, name, prompt, envs))
  {
    hide Sound, AbortActive, AbortQueued;
    if name in st.active {
      AbortActiveKeepsSound(st, name, prompt, envs);
    } else {
      AbortQueuedKeepsSound(st, name);
      SoundIgnoresTrace(AbortQueued(st, name), name, Cancelled);
    }
  }

  lemma RequestStoragesKeepsSound(st: State, names: seq<string>, client: string)
    requires Sound(st)
    ensures Sound(RequestStorages(st, names, client))
  {
    hide Balanced, ActiveShape, QueueShape, Live, Held, AllAvailable, Granted;
    if AllAvailable(st.booker, names, client) {
      ExternalGrantBalances(st.booker, Held(Live(st.active, st.queue)), st.external, st.surplus, names, client);
    }
  }

  // The assumption on plug-ins and D-Bus callers: they release only what they booked.
  ghost predicate ReleasesOwnBookings(st: State, names: seq<string>) {
    forall s | s in names :: ReleaseOf(st.booker, names, s) <= st.external[s]
  }

  lemma ReleaseExternalKeepsSound(st: State, names: seq<string>)
    requires Sound(st) && ReleasesOwnBookings(st, names)
    ensures Sound(ReleaseExternal(st, names))
  {
    hide Balanced, ActiveShape, QueueShape, Live, Held, Released;
    ExternalReleaseBalances(st.booker, Held(Live(st.active, st.queue)), st.external, st.surplus, names);
  }

  // -------------------------------------------------------------------------------------------
  // The backup handshake
  // -------------------------------------------------------------------------------------------

  // While a backup is on, a reply is owed exactly as long as a session is active, and every active
  // session but those in `waiting` has been told to abort. Each request was answered, is being
  // answered, or was overwritten.
  ghost predicate HandshakeBut(st: State, waiting: set<string>) {
    && (st.backup.owed ==> st.backup.on)
    && (st.backup.on ==> (st.backup.owed <==> |st.active| > 0))
    && (st.backup.on ==> forall n | n in st.active && n !in waiting :: st.active[n].aborted)
    && st.backup.requests == st.backup.replies + st.backup.dropped + if st.backup.owed then 1 else 0
  }

  ghost predicate Handshake(st: State) {
    HandshakeBut(st, {})
  }

  // The tally of requests and of lost replies, and the flag, are as they were.
  ghost predicate SameRequests(st: State, st1: State) {
    && st1.backup.on == st.backup.on
    && st1.backup.requests == st.backup.requests
    && st1.backup.dropped == st.backup.dropped
  }

  lemma StartNextSyncLeavesBackup(st: State, envs: string -> Env)
    requires QueueHasClients(st.queue)
    ensures StartNextSync(st, envs).0.backup == st.backup
    ensures st.backup.on ==> StartNextSync(st, envs) == (st, false)
  {
    hide BackendNames, Released, ClientActive, QueueHasClients, ReserveFor, StartSyncNow;
    if st.queue != [] {
      var s := st.queue[0];
      var rest := st.(queue := st.queue[1..]);
      var (st1, s1, _) := ReserveFor(rest, s);
      ReserveFrame(rest, s);
      StartNowFrame(st1, s1, envs(s.profile.name));
    }
  }

  lemma {:induction false} DrainLeavesBackup(st: State, envs: string -> Env)
    requires QueueHasClients(st.queue)
    ensures Drain(st, envs).backup == st.backup
    ensures st.backup.on ==> Drain(st, envs) == st
    decreases |st.queue|
  {
    StartNextSyncLeavesBackup(st, envs);
    hide StartNextSync;
    var (st1, again) := StartNextSync(st, envs);
    if again {
      DrainLeavesBackup(st1, envs);
    }
  }

  lemma StartSyncLeavesBackup(st: State, name: string, scheduled: bool, found: Option<SyncProfile>, env: Env)
    ensures var st1 := StartSync(st, name, scheduled, found, env).0;
            st1.backup == st.backup && (st.backup.on ==> st1.active == st.active)
  {
    hide BackendNames, AllAvailable, Granted, Released;
  }

  lemma RetireKeepsHandshake(st: State, name: string, status: Status, acquired: set<string>, waiting: set<string>)
    requires HandshakeBut(st, waiting)
    requires name in st.active && name in waiting ==> st.active[name].aborted
    ensures var st1 := Retire(st, name, status, acquired);
            && HandshakeBut(st1, waiting - {name}) && SameRequests(st, st1)
            && st1.queue == st.queue && st1.active == st.active - {name}
  {
    hide BackendNames, EnableStorages, Released;
    if name in st.active {
      assert st.active.Keys == (st.active - {name}).Keys + {name};
      assert |st.active| == |st.active - {name}| + 1;
    } else {
      assert st.active - {name} == st.active;
    }
  }

  // Who is active matters during a backup only.
  lemma SameHandshake(st: State, st1: State, waiting: set<string>)
    requires st1.backup == st.backup && (st.backup.on ==> st1.active == st.active)
    ensures HandshakeBut(st1, waiting) <==> HandshakeBut(st, waiting)
  {}

  lemma FinishKeepsHandshake(st: State, name: string, status: Status, acquired: set<string>, envs: string -> Env,
                             waiting: set<string>)
    requires HandshakeBut(st, waiting) && QueueHasClients(st.queue)
    requires name in st.active && name in waiting ==> st.active[name].aborted
    ensures var st1 := OnSessionFinished(st, name, status, acquired, envs);
            && (st.backup.on ==> HandshakeBut(st1, waiting - {name}))
            && (waiting == {} ==> Handshake(st1))
            && SameRequests(st, st1)
            && (st.backup.on ==> st1.active == st.active - {name} && st1.queue == st.queue)
  {
    hide Retire, Drain, QueueHasClients, HandshakeBut;
    RetireKeepsHandshake(st, name, status, acquired, waiting);
    var told := Emit(Retire(st, name, status, acquired), name, status);
    DrainLeavesBackup(told, envs);
    SameHandshake(Retire(st, name, status, acquired), Drain(told, envs), waiting - {name});
    assert waiting == {} ==> waiting - {name} == {};
  }

  lemma DeliverKeepsHandshake(st: State, name: string, signal: Signal, envs: string -> Env, waiting: set<string>)
    requires HandshakeBut(st, waiting) && QueueHasClients(st.queue) && name in st.active
    requires name in waiting ==> st.active[name].aborted
    ensures var st1 := Deliver(st, name, signal, envs);
            && (st.backup.on ==> HandshakeBut(st1, waiting - {name}))
            && (waiting == {} ==> Handshake(st1))
            && SameRequests(st, st1)
            && (st.backup.on ==> st1.active.Keys <= st.active.Keys && st1.queue == st.queue)
            && (st.backup.on ==> forall n | n in st1.active :: st1.active[n].profile == st.active[n].profile)
  {
    hide OnSessionFinished;
    var (s, announced) := React(st.active[name], signal);
    var st1 := st.(active := st.active[name := s]);
    assert st1.active.Keys == st.active.Keys;
    assert |st1.active| == |st.active| by {
      assert |st1.active.Keys| == |st.active.Keys|;
    }
    assert HandshakeBut(st1, waiting);
    if announced.Some? {
      FinishKeepsHandshake(st1, name, announced.value, AcquiredBy(signal), envs, waiting);
    }
  }

  lemma AbortActiveKeepsHandshake(st: State, name: string, prompt: Option<Signal>, envs: string -> Env,
                                  waiting: set<string>)
    requires HandshakeBut(st, waiting) && QueueHasClients(st.queue)
    requires name in st.active && st.active[name].started
    ensures var st1 := AbortActive(st, name, prompt, envs);
            && (st.backup.on ==> HandshakeBut(st1, waiting - {name}))
            && (waiting == {} ==> Handshake(st1))
            && SameRequests(st, st1)
            && (st.backup.on ==> st1.active.Keys <= st.active.Keys && st1.queue == st.queue)
            && (st.backup.on ==> forall n | n in st1.active :: st1.active[n].profile == st.active[n].profile)
  {
    hide OnSessionFinished, Deliver;
    var st1 := st.(active := st.active[name := st.active[name].(aborted := true)]);
    assert st1.active.Keys == st.active.Keys;
    assert |st1.active| == |st.active| by {
      assert |st1.active.Keys| == |st.active.Keys|;
    }
    assert HandshakeBut(st1, waiting - {name});
    assert HandshakeBut(st1, waiting);
    if prompt.Some? {
      DeliverKeepsHandshake(st1, name, prompt.value, envs, waiting);
    }
  }

  // What the abort calls of a starting backup may report at once.
  ghost predicate PromptsReleaseWhatWasReserved(st: State, prompts: map<string, Signal>) {
    forall n | n in st.active && n in prompts :: SignalReleasesWhatItReserved(st, n, prompts[n])
  }

  lemma {:induction false} AbortAllKeeps(st: State, order: seq<string>, prompts: map<string, Signal>)
    requires Sound(st) && QueueHasClients(st.queue) && st.backup.on
    requires HandshakeBut(st, set n | n in order)
    requires PromptsReleaseWhatWasReserved(st, prompts)
    ensures var st1 := AbortAll(st, order, prompts);
            && Sound(st1) && Handshake(st1) && SameRequests(st, st1)
            && st1.active.Keys <= st.active.Keys
    decreases |order|
  {
    hide Sound, AbortActive;
    if order != [] {
      var n := order[0];
      var waiting := set n | n in order;
      var rest := set n | n in order[1..];
      var st1 := if n in st.active
                 then AbortActive(st, n, PromptOf(prompts, n), _ => Env(false, false, false, false)) else st;
      if n in st.active {
        SoundMeansStarted(st, n);
        AbortActiveKeepsSound(st, n, PromptOf(prompts, n), _ => Env(false, false, false, false));
        AbortActiveKeepsHandshake(st, n, PromptOf(prompts, n), _ => Env(false, false, false, false), waiting);
      }
      assert HandshakeBut(st1, rest) by {
        forall m | m in st1.active && m !in rest ensures m !in waiting - {n} {}
      }
      assert PromptsReleaseWhatWasReserved(st1, prompts);
      AbortAllKeeps(st1, order[1..], prompts);
    }
  }
}
