/** Exactly when a run leaves storages booked that nobody will give back. */
module SchedulerLeftovers {
  import opened Wrappers
  import opened StorageBooking
  import opened SyncProfiles
  import opened Scheduler
  import opened SchedulerInvariant
  import opened SchedulerRuns
  import opened SchedulerTheorems
  import opened SchedulerResults

  // The attempt meets a head whose back-ends an earlier attempt booked already, and does not drop it.
  ghost predicate MeetsBooked(st: State, envs: string -> Env) {
    && st.queue != [] && !st.backup.on
    && st.queue[0].holds && Backends(st.queue[0]) != []
    && !(st.queue[0].scheduled && envs(st.queue[0].profile.name).lowPower)
  }

  ghost predicate DrainMeets(st: State, envs: string -> Env)
    requires QueueHasClients(st.queue)
    decreases |st.queue|
  {
    MeetsBooked(st, envs) || (StartNextSync(st, envs).1 && DrainMeets(StartNextSync(st, envs).0, envs))
  }

  ghost predicate FinishMeets(st: State, name: string, status: Status, acquired: set<string>, envs: string -> Env)
    requires QueueHasClients(st.queue)
  {
    DrainMeets(Emit(Retire(st, name, status, acquired), name, status), envs)
  }

  ghost predicate DeliverMeets(st: State, name: string, signal: Signal, envs: string -> Env)
    requires QueueHasClients(st.queue) && name in st.active
  {
    var (s, announced) := React(st.active[name], signal);
    announced.Some?
    && FinishMeets(st.(active := st.active[name := s]), name, announced.value, AcquiredBy(signal), envs)
  }

  ghost predicate AbortMeets(st: State, name: string, prompt: Option<Signal>, envs: string -> Env)
    requires QueueHasClients(st.queue) && name in st.active
  {
    if !st.active[name].started then FinishMeets(st, name, Error, {}, envs)
    else
      prompt.Some?
      && DeliverMeets(st.(active := st.active[name := st.active[name].(aborted := true)]), name, prompt.value, envs)
  }

  // Some attempt within the slot does. A backup start attempts nothing.
  ghost predicate StepMeets(st: State, e: Event)
    requires QueueHasClients(st.queue)
  {
    match e
    case Signalled(name, signal, envs) => name in st.active && DeliverMeets(st, name, signal, envs)
    case StaleFinish(name, status, acquired, envs) => FinishMeets(st, name, status, acquired, envs)
    case Abort(name, prompt, envs) => name in st.active && AbortMeets(st, name, prompt, envs)
    case StorageReleased(envs) => DrainMeets(st, envs)
    case _ => false
  }

  // Some attempt along the run does.
  ghost predicate RunMeets(st: State, es: seq<Event>)
    decreases |es|
  {
    es != [] && QueueHasClients(st.queue) && (StepMeets(st, es[0]) || RunMeets(Step(st, es[0]), es[1..]))
  }

  ghost predicate Grows(st: State, st1: State, more: bool) {
    st.surplus <= st1.surplus && (st.surplus == st1.surplus <==> !more)
  }

  lemma GrowsTransitive(a: State, b: State, c: State, x: bool, y: bool)
    requires Grows(a, b, x) && Grows(b, c, y)
    ensures Grows(a, c, x || y)
  {
    if a.surplus == c.surplus {
      assert forall s :: a.surplus[s] <= b.surplus[s] <= c.surplus[s];
      assert a.surplus == b.surplus;
    }
  }

  lemma OnlyNothingAddsNothing(m: multiset<string>, names: seq<string>)
    ensures m <= m + multiset(names)
    ensures m == m + multiset(names) <==> names == []
  {
    if names != [] {
      assert (m + multiset(names))[names[0]] > m[names[0]];
    } else {
      assert m + multiset(names) == m;
    }
  }

  lemma AttemptGrows(st: State, envs: string -> Env)
    requires Sound(st) && QueueHasClients(st.queue)
    ensures Grows(st, StartNextSync(st, envs).0, MeetsBooked(st, envs))
  {
    SecondBookingOnlyOfDeferredHead(st, envs);
    hide Sound, StartNextSync, Backends, QueueHasClients;
    OnlyNothingAddsNothing(st.surplus, []);
    if st.queue != [] {
      OnlyNothingAddsNothing(st.surplus, Backends(st.queue[0]));
    }
  }

  lemma {:induction false} DrainGrows(st: State, envs: string -> Env)
    requires Sound(st) && QueueHasClients(st.queue)
    ensures Grows(st, Drain(st, envs), DrainMeets(st, envs))
    decreases |st.queue|
  {
    AttemptGrows(st, envs);
    StartNextSyncKeepsSound(st, envs);
    hide Sound, StartNextSync, Grows, MeetsBooked, QueueHasClients;
    var (st1, again) := StartNextSync(st, envs);
    if again {
      SoundMeansClients(st1);
      DrainGrows(st1, envs);
      GrowsTransitive(st, st1, Drain(st1, envs), MeetsBooked(st, envs), DrainMeets(st1, envs));
    }
  }

  lemma FinishGrows(st: State, name: string, status: Status, acquired: set<string>, envs: string -> Env)
    requires Sound(Retire(st, name, status, acquired)) && QueueHasClients(st.queue)
    ensures Grows(st, OnSessionFinished(st, name, status, acquired, envs),
                  FinishMeets(st, name, status, acquired, envs))
  {
    RetireFrame(st, name, status, acquired);
    hide Sound, Retire, DrainMeets, Drain;
    var st1 := Retire(st, name, status, acquired);
    SoundIgnoresTrace(st1, name, status);
    DrainGrows(Emit(st1, name, status), envs);
  }

  // The session may have changed its flags before it leaves.
  lemma RetireAfterReact(st: State, name: string, s: Session, status: Status, acquired: set<string>)
    requires Sound(st) && name in st.active && ReleasesWhatItReserved(st, name, status, acquired)
    requires s.profile == st.active[name].profile && s.holds == st.active[name].holds
    ensures Sound(Retire(st.(active := st.active[name := s]), name, status, acquired))
  {
    hide Sound, BackendNames, EnableStorages, Released, NothingNewAcquired;
    var st1 := st.(active := st.active[name := s]);
    RetireKeepsSound(st, name, status, acquired);
    assert st1.active - {name} == st.active - {name};
    SoundIgnoresBackup(Retire(st, name, status, acquired), Retire(st1, name, status, acquired));
  }

  lemma DeliverGrows(st: State, name: string, signal: Signal, envs: string -> Env)
    requires Sound(st) && name in st.active && SignalReleasesWhatItReserved(st, name, signal)
    requires QueueHasClients(st.queue)
    ensures Grows(st, Deliver(st, name, signal, envs), DeliverMeets(st, name, signal, envs))
  {
    hide Sound, OnSessionFinished, FinishMeets, NothingNewAcquired, QueueHasClients, Retire;
    var (s, announced) := React(st.active[name], signal);
    if announced.Some? {
      RetireAfterReact(st, name, s, announced.value, AcquiredBy(signal));
      FinishGrows(st.(active := st.active[name := s]), name, announced.value, AcquiredBy(signal), envs);
    }
  }

  lemma AbortGrows(st: State, name: string, prompt: Option<Signal>, envs: string -> Env)
    requires Sound(st) && name in st.active && QueueHasClients(st.queue)
    requires prompt.Some? ==> SignalReleasesWhatItReserved(st, name, prompt.value)
    ensures Grows(st, AbortActive(st, name, prompt, envs), AbortMeets(st, name, prompt, envs))
  {
    SoundMeansStarted(st, name);
    ActiveFlagsKeepSound(st, name, st.active[name].(aborted := true));
    hide Sound, Deliver, DeliverMeets, OnSessionFinished, FinishMeets, QueueHasClients, NothingNewAcquired;
    if prompt.Some? {
      DeliverGrows(st.(active := st.active[name := st.active[name].(aborted := true)]), name, prompt.value, envs);
    }
  }

  // Nothing drains while a backup is on.
  lemma {:induction false} AbortAllBooksNothing(st: State, order: seq<string>, prompts: map<string, Signal>)
    requires QueueHasClients(st.queue) && st.backup.on
    ensures AbortAll(st, order, prompts).surplus == st.surplus
    decreases |order|
  {
    hide AbortActive, QueueHasClients;
    if order != [] {
      var envs := _ => Env(false, false, false, false);
      if order[0] in st.active {
        AbortUnderBackup(st, order[0], PromptOf(prompts, order[0]), envs);
        AbortAllBooksNothing(AbortActive(st, order[0], PromptOf(prompts, order[0]), envs), order[1..], prompts);
      } else {
        AbortAllBooksNothing(st, order[1..], prompts);
      }
    }
  }

  lemma StartBooksOnce(st: State, name: string, scheduled: bool, found: Option<SyncProfile>, env: Env)
    ensures StartSync(st, name, scheduled, found, env).0.surplus == st.surplus
  {
    hide BackendNames, AllAvailable, Granted, Released;
  }

  lemma SameSurplus(st: State, st1: State)
    requires st1.surplus == st.surplus
    ensures Grows(st, st1, false)
  {}

  lemma StepGrows(st: State, e: Event)
    requires Good(st) && QueueHasClients(st.queue) && Allowed(st, e)
    ensures Grows(st, Step(st, e), StepMeets(st, e))
  {
    hide Sound, Handshake, Grows, Deliver, Drain, StartSync, OnSessionFinished, AbortActive, AbortAll, FinishMeets,
         DeliverMeets, AbortMeets, DrainMeets, NothingNewAcquired;
    match e {
      case Start(name, scheduled, found, env) =>
        StartBooksOnce(st, name, scheduled, found, env);
        SameSurplus(st, Step(st, e));
      case Signalled(name, signal, envs) =>
        if name in st.active { DeliverGrows(st, name, signal, envs); } else { SameSurplus(st, st); }
      case StaleFinish(name, status, acquired, envs) =>
        RetireKeepsSound(st, name, status, acquired);
        FinishGrows(st, name, status, acquired, envs);
      case Abort(name, prompt, envs) =>
        if name in st.active { AbortGrows(st, name, prompt, envs); } else { SameSurplus(st, Step(st, e)); }
      case StorageReleased(envs) => DrainGrows(st, envs);
      case BackupStart(order, prompts) =>
        AbortAllBooksNothing(DelayReply(st, true), order, prompts);
        SameSurplus(st, Step(st, e));
      case _ => SameSurplus(st, Step(st, e));
    }
  }

  lemma {:induction false} RunGrows(st: State, es: seq<Event>, st1: State)
    requires Good(st) && Reaches(st, es, st1)
    ensures Grows(st, st1, RunMeets(st, es))
    decreases |es|
  {
    hide Good, Step, Allowed, Grows, StepMeets, QueueHasClients;
    if es == [] {
      SameSurplus(st, st1);
    } else {
      StepKeepsGood(st, es[0]);
      StepGrows(st, es[0]);
      RunGrows(Step(st, es[0]), es[1..], st1);
      GrowsTransitive(st, Step(st, es[0]), st1, StepMeets(st, es[0]), RunMeets(Step(st, es[0]), es[1..]));
    }
  }

  /** When everything has ended, the reservation map is empty exactly if no attempt along the run met
      a head whose back-ends were booked already. */
  lemma NothingStaysBookedIff(es: seq<Event>, st: State)
    requires Reaches(INITIAL, es, st) && Quiet(st)
    ensures st.booker == map[] <==> !RunMeets(INITIAL, es)
  {
    InitiallyGood();
    RunGrows(INITIAL, es, st);
    hide Reaches, RunMeets, Good;
    QuietBooksAreSurplus(st);
  }
}
