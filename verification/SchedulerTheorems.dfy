/** The main results about the scheduler, for every run and every reachable state. */
module SchedulerTheorems {
  import opened Wrappers
  import opened SyncProfiles
  import opened Scheduler
  import opened SchedulerInvariant
  import opened SchedulerRuns

  // -------------------------------------------------------------------------------------------
  // Runs
  // -------------------------------------------------------------------------------------------

  // One slot invocation with everything the outside world contributes to it.
  datatype Event =
    | Start(name: string, scheduled: bool, found: Option<SyncProfile>, env: Env)
    | Signalled(name: string, signal: Signal, envs: string -> Env)
    | StaleFinish(name: string, status: Status, acquired: set<string>, envs: string -> Env)
    | Abort(name: string, prompt: Option<Signal>, envs: string -> Env)
    | Request(names: seq<string>, client: string)
    | Give(names: seq<string>)
    | StorageReleased(envs: string -> Env)
    | BackupStart(order: seq<string>, prompts: map<string, Signal>)
    | BackupFinish

  ghost function Step(st: State, e: Event): State
    requires QueueHasClients(st.queue)
  {
    match e
    case Start(name, scheduled, found, env) => StartSync(st, name, scheduled, found, env).0
    case Signalled(name, signal, envs) => if name in st.active then Deliver(st, name, signal, envs) else st
    case StaleFinish(name, status, acquired, envs) => OnSessionFinished(st, name, status, acquired, envs)
    case Abort(name, prompt, envs) => AbortSync(st, name, prompt, envs)
    case Request(names, client) => RequestStorages(st, names, client)
    case Give(names) => ReleaseExternal(st, names)
    case StorageReleased(envs) => Drain(st, envs)
    case BackupStart(order, prompts) => BackupStarts(st, order, prompts)
    case BackupFinish => BackupFinishes(st)
  }

  // What is assumed of the outside world: a profile is found under its own, non-empty name and has
  // a client sub-profile; callers release only what they booked; a successful session switched no
  // storage on; sessions announce final statuses; a backup start visits every active session.
  ghost predicate Allowed(st: State, e: Event) {
    match e
    case Start(name, _, found, _) => found.Some? ==> found.value.name == name && name != "" && found.value.client.Some?
    case Signalled(name, signal, _) => SignalReleasesWhatItReserved(st, name, signal)
    case StaleFinish(name, status, acquired, _) => Final(status) && ReleasesWhatItReserved(st, name, status, acquired)
    case Abort(name, prompt, _) => prompt.Some? ==> SignalReleasesWhatItReserved(st, name, prompt.value)
    case Request(_, _) => true
    case Give(names) => ReleasesOwnBookings(st, names)
    case StorageReleased(_) => true
    case BackupStart(order, prompts) =>
      (set n | n in order) == st.active.Keys && PromptsReleaseWhatWasReserved(st, prompts)
    case BackupFinish => true
  }

  // Everything that holds in each reachable state.
  ghost predicate Good(st: State) {
    Sound(st) && Handshake(st)
  }

  // -------------------------------------------------------------------------------------------
  // One step
  // -------------------------------------------------------------------------------------------

  lemma BackupStartsKeeps(st: State, order: seq<string>, prompts: map<string, Signal>)
    requires Good(st) && QueueHasClients(st.queue)
    requires (set n | n in order) == st.active.Keys && PromptsReleaseWhatWasReserved(st, prompts)
    ensures Good(BackupStarts(st, order, prompts))
    ensures BackupStarts(st, order, prompts).active.Keys <= st.active.Keys
  {
    hide Sound, AbortAll;
    var st1 := DelayReply(st, true);
    SoundIgnoresBackup(st, st1);
    if |st1.active| == 0 {
      SoundIgnoresBackup(st, SendReply(st1));
    } else {
      assert HandshakeBut(st1, set n | n in order);
      assert PromptsReleaseWhatWasReserved(st1, prompts);
      AbortAllKeeps(st1, order, prompts);
    }
  }

  lemma BackupFinishesKeeps(st: State)
    requires Good(st)
    ensures Good(BackupFinishes(st))
  {
    hide Sound;
    SoundIgnoresBackup(st, BackupFinishes(st));
  }

  lemma StepKeepsSound(st: State, e: Event)
    requires Good(st) && QueueHasClients(st.queue) && Allowed(st, e)
    ensures Sound(Step(st, e))
  {
    hide Sound, Handshake, NothingNewAcquired, Deliver, Drain, StartSync, OnSessionFinished, AbortSync,
         RequestStorages, ReleaseExternal, BackupStarts, BackupFinishes;
    match e {
      case Start(name, scheduled, found, env) => StartSyncKeepsSound(st, name, scheduled, found, env);
      case Signalled(name, signal, envs) => if name in st.active { DeliverKeepsSound(st, name, signal, envs); }
      case StaleFinish(name, status, acquired, envs) => FinishKeepsSound(st, name, status, acquired, envs);
      case Abort(name, prompt, envs) => AbortSyncKeepsSound(st, name, prompt, envs);
      case Request(names, client) => RequestStoragesKeepsSound(st, names, client);
      case Give(names) => ReleaseExternalKeepsSound(st, names);
      case StorageReleased(envs) => DrainKeepsSound(st, envs);
      case BackupStart(order, prompts) => BackupStartsKeeps(st, order, prompts);
      case BackupFinish => BackupFinishesKeeps(st);
    }
  }

  // Without a further request from the backup framework, a step neither answers a request nobody
  // made nor, while a backup is on, lets a session become active.
  lemma StepKeepsHandshake(st: State, e: Event)
    requires Good(st) && QueueHasClients(st.queue) && Allowed(st, e)
    ensures Handshake(Step(st, e))
    ensures !e.BackupStart? && !e.BackupFinish? ==>
              && SameRequests(st, Step(st, e))
              && (st.backup.on ==> Step(st, e).active.Keys <= st.active.Keys)
  {
    hide Sound, Deliver, Drain, StartSync, OnSessionFinished, AbortActive, BackupStarts, BackupFinishes;
    match e {
      case Start(name, scheduled, found, env) => StartSyncLeavesBackup(st, name, scheduled, found, env);
      case Signalled(name, signal, envs) =>
        if name in st.active { DeliverKeepsHandshake(st, name, signal, envs, {}); }
      case StaleFinish(name, status, acquired, envs) => FinishKeepsHandshake(st, name, status, acquired, envs, {});
      case Abort(name, prompt, envs) =>
        if name in st.active {
          SoundMeansStarted(st, name);
          AbortActiveKeepsHandshake(st, name, prompt, envs, {});
        }
      case Request(names, client) =>
      case Give(names) =>
      case StorageReleased(envs) => DrainLeavesBackup(st, envs);
      case BackupStart(order, prompts) => BackupStartsKeeps(st, order, prompts);
      case BackupFinish => BackupFinishesKeeps(st);
    }
  }

  // -------------------------------------------------------------------------------------------
  // Whole runs
  // -------------------------------------------------------------------------------------------

  lemma StepKeepsGood(st: State, e: Event)
    requires Good(st) && QueueHasClients(st.queue) && Allowed(st, e)
    ensures Good(Step(st, e)) && QueueHasClients(Step(st, e).queue)
  {
    StepKeepsSound(st, e);
    StepKeepsHandshake(st, e);
    hide Step;
    SoundMeansClients(Step(st, e));
  }

  // `st1` is reached from `st` by the slot invocations `es`, each allowed where it happens.
  ghost predicate Reaches(st: State, es: seq<Event>, st1: State)
    decreases |es|
  {
    if es == [] then st1 == st
    else QueueHasClients(st.queue) && Allowed(st, es[0]) && Reaches(Step(st, es[0]), es[1..], st1)
  }

  lemma {:induction false} RunsStayGood(st: State, es: seq<Event>, st1: State)
    requires Good(st) && Reaches(st, es, st1)
    ensures Good(st1)
    decreases |es|
  {
    hide Good, Step, Allowed;
    if es != [] {
      StepKeepsGood(st, es[0]);
      RunsStayGood(Step(st, es[0]), es[1..], st1);
    }
  }

  lemma InitiallyGood()
    ensures Good(INITIAL)
  {
    assert Held(Live(INITIAL.active, INITIAL.queue)) == map[];
  }
}
