/** What becomes of an active session when it is signalled or aborted, and whom a drain starts. */
module SchedulerSignals {
  import opened Wrappers
  import opened SyncProfiles
  import opened Scheduler
  import opened SchedulerInvariant
  import opened SchedulerRuns
  import opened SchedulerResults
  import opened SchedulerOutcomes

  // -------------------------------------------------------------------------------------------
  // The drain
  // -------------------------------------------------------------------------------------------

  // Nothing happened to this name.
  ghost predicate Spared(st: State, st1: State, n: string) {
    && (n in st1.active <==> n in st.active)
    && (n in st.active ==> st1.active[n] == st.active[n])
    && st1.ended[n] == st.ended[n]
  }

  lemma AttemptSpares(st: State, envs: string -> Env, n: string)
    requires QueueHasClients(st.queue) && !IsQueued(st.queue, n)
    ensures var (st1, again) := StartNextSync(st, envs);
            Spared(st, st1, n) && st.trace <= st1.trace && (again ==> !IsQueued(st1.queue, n))
  {
    if st.queue != [] && !st.backup.on {
      AttemptOutcome(st, envs);
      assert st.queue[0].profile.name != n;
      assert forall i | 0 <= i < |st.queue[1..]| :: st.queue[1..][i] == st.queue[i + 1];
      hide StartNextSync, Bookable, Busy, Runs;
    }
  }

  lemma AttemptTells(st: State, envs: string -> Env)
    requires QueueHasClients(st.queue)
    ensures st.trace <= StartNextSync(st, envs).0.trace
  {
    if st.queue != [] && !st.backup.on {
      AttemptOutcome(st, envs);
      hide StartNextSync, Bookable, Busy, Runs;
    }
  }

  // The drain concerns nobody but those who wait.
  lemma {:induction false} DrainSpares(st: State, envs: string -> Env, n: string)
    requires QueueHasClients(st.queue)
    ensures !IsQueued(st.queue, n) ==> Spared(st, Drain(st, envs), n)
    ensures st.trace <= Drain(st, envs).trace
    decreases |st.queue|
  {
    hide StartNextSync, IsQueued;
    AttemptTells(st, envs);
    var (st1, again) := StartNextSync(st, envs);
    if !IsQueued(st.queue, n) {
      AttemptSpares(st, envs, n);
    }
    if again {
      DrainSpares(st1, envs, n);
    }
  }

  lemma HeadIsNotBehind(st: State)
    requires QueueShape(st.queue, st.active) && st.queue != []
    ensures !IsQueued(st.queue[1..], st.queue[0].profile.name) && st.queue[0].profile.name !in st.active
  {
    ByNameIsQueued(st.queue[1..], st.queue[0].profile.name);
  }

  // Those further down are not ended by an attempt on the head.
  lemma AttemptLeaves(st: State, envs: string -> Env, i: nat)
    requires QueueHasClients(st.queue) && QueueShape(st.queue, st.active) && 0 < i < |st.queue|
    requires StartNextSync(st, envs).1
    ensures StartNextSync(st, envs).0.ended[st.queue[i].profile.name] == st.ended[st.queue[i].profile.name]
  {
    hide QueueShape;
    if !st.backup.on {
      DistinctInQueue(st.queue, st.active, 0, i);
      AttemptOutcome(st, envs);
      hide StartNextSync, Bookable, Busy, Runs;
    }
  }

  /** Of the waiting syncs that the drain takes off the queue, it starts exactly those that are not
      scheduled ones on low power and whose runner does; each of the others has ended once more. */
  lemma {:induction false} DrainStartsIff(st: State, envs: string -> Env, i: nat)
    requires QueueHasClients(st.queue) && QueueShape(st.queue, st.active)
    requires i < |st.queue| - |Drain(st, envs).queue|
    ensures var (st1, s) := (Drain(st, envs), st.queue[i]);
            var (n, env) := (s.profile.name, envs(s.profile.name));
            var runs := !(s.scheduled && env.lowPower) && env.runnerInits
                        && ((s.profile.online && !s.scheduled) || env.runnerStarts);
            && (n in st1.active <==> runs)
            && (runs ==> st1.active[n] == s.(started := true, holds := true) && st1.ended[n] == st.ended[n])
            && (!runs ==> st1.ended[n] == st.ended[n] + 1)
    decreases |st.queue|
  {
    hide StartNextSync, QueueShape, IsQueued, Extends, Stuck, Settled;
    DrainStep(st, envs);
    QueueShapeApart(st.queue, st.active);
    StartNextSyncLeavesBackup(st, envs);
    var (st1, again) := StartNextSync(st, envs);
    var s := st.queue[i];
    var n := s.profile.name;
    assert again;
    if i == 0 {
      HeadIsNotBehind(st);
      AttemptOutcome(st, envs);
      DrainSpares(st1, envs, n);
      hide Drain, Bookable, Busy;
    } else {
      AttemptLeaves(st, envs, i);
      DrainStartsIff(st1, envs, i - 1);
    }
  }

  // -------------------------------------------------------------------------------------------
  // A session's end
  // -------------------------------------------------------------------------------------------

  // The session has left with this status, once, before anything else is announced; and the other
  // active sessions go on.
  ghost predicate LeftWith(st: State, st1: State, name: string, status: Status) {
    && name !in st1.active
    && st1.ended[name] == st.ended[name] + 1
    && st.trace + [Emission(name, status)] <= st1.trace
    && forall n | n in st.active && n != name :: n in st1.active && st1.active[n] == st.active[n]
  }

  // Each active session under its own name, and nobody both active and waiting.
  ghost predicate Named(st: State) {
    QueueShape(st.queue, st.active) && forall n | n in st.active :: st.active[n].profile.name == n
  }

  lemma SoundIsNamed(st: State)
    requires Sound(st)
    ensures Named(st) && QueueHasClients(st.queue)
  {
    hide Books, Live;
    QueueShapeApart(st.queue, st.active);
    forall n | n in st.active ensures st.active[n].profile.name == n {
      assert ActiveOk(n, st.active[n]);
    }
  }

  lemma RetireLeaves(st: State, name: string, status: Status, acquired: set<string>)
    requires Named(st)
    ensures var st1 := Retire(st, name, status, acquired);
            && st1.active == st.active - {name} && st1.trace == st.trace
            && st1.ended[name] == st.ended[name] + if name in st.active then 1 else 0
  {
    hide BackendNames, EnableStorages, QueueShape;
    if name !in st.active {
      assert st.active - {name} == st.active;
    }
  }

  /** The finish slot announces the status it was called with first, and the session it is about, if
      there is one, has left. */
  lemma FinishOutcome(st: State, name: string, status: Status, acquired: set<string>, envs: string -> Env)
    requires QueueHasClients(st.queue) && Named(st)
    ensures var st1 := OnSessionFinished(st, name, status, acquired, envs);
            && st.trace + [Emission(name, status)] <= st1.trace
            && (name in st.active ==> LeftWith(st, st1, name, status))
  {
    hide Retire, Drain, IsQueued, QueueShape, QueueHasClients;
    RetireLeaves(st, name, status, acquired);
    RetireFrame(st, name, status, acquired);
    var mid := Emit(Retire(st, name, status, acquired), name, status);
    DrainSpares(mid, envs, name);
    if name in st.active {
      forall n | n in st.active ensures Spared(mid, Drain(mid, envs), n) {
        QueueShapeApart(st.queue, st.active);
        ByNameIsQueued(st.queue, n);
        DrainSpares(mid, envs, n);
      }
    }
  }

  // What ends a session.
  ghost predicate Ends(finished: bool, signal: Signal) {
    || signal.Success? || signal.Failure? || signal.NetworkFailed?
    || (signal.Terminated? && !finished)
    || (signal.NetworkOpened? && !signal.runnerStarts)
  }

  // And with which status.
  ghost function EndsWith(aborted: bool, signal: Signal): Status {
    match signal
    case Success(_) => if aborted then Aborted else Done
    case Failure(unsupported) => if unsupported then NotPossible else Error
    case _ => Error
  }

  lemma {:induction false} SameShapeBut(q: seq<Session>, active: map<string, Session>, other: map<string, Session>)
    requires other.Keys == active.Keys && QueueShape(q, active)
    ensures QueueShape(q, other)
  {
    if q != [] { SameShapeBut(q[1..], active, other); }
  }

  lemma SameShape(st: State, st1: State)
    requires st1.active.Keys == st.active.Keys && st1.queue == st.queue && Named(st)
    requires forall n | n in st.active :: st1.active[n].profile == st.active[n].profile
    ensures Named(st1)
  {
    SameShapeBut(st.queue, st.active, st1.active);
  }

  /** A success, a failure, a lost network, a runner that does not start and a plug-in that terminates
      unfinished each end the session, with exactly this status. Nothing else does: a network that
      opens with a runner that starts leaves it started, and nothing is announced. */
  lemma SignalOutcome(st: State, name: string, signal: Signal, envs: string -> Env)
    requires QueueHasClients(st.queue) && Named(st) && name in st.active
    ensures var (st1, s) := (Deliver(st, name, signal, envs), st.active[name]);
            if Ends(s.finished, signal) then LeftWith(st, st1, name, EndsWith(s.aborted, signal))
            else if signal.NetworkOpened? then st1 == st.(active := st.active[name := s.(started := true)])
            else st1 == st
  {
    hide OnSessionFinished, QueueShape, QueueHasClients;
    var s := st.active[name];
    var (s1, announced) := React(s, signal);
    assert s.(started := s.started) == s && st.active[name := s] == st.active;
    if announced.Some? {
      var st1 := st.(active := st.active[name := s1]);
      SameShape(st, st1);
      FinishOutcome(st1, name, announced.value, AcquiredBy(signal), envs);
    }
  }

  /** Aborting an active session: without a started runner it leaves at once with an error. Otherwise
      it is marked, and stays and announces nothing unless its plug-in signals from within the call;
      then it is ended by what ends any session, a success counting as aborted. */
  lemma AbortOutcome(st: State, name: string, prompt: Option<Signal>, envs: string -> Env)
    requires QueueHasClients(st.queue) && Named(st) && name in st.active
    ensures var (st1, s) := (AbortSync(st, name, prompt, envs), st.active[name]);
            if !s.started then LeftWith(st, st1, name, Error)
            else if prompt.Some? && Ends(s.finished, prompt.value) then
              LeftWith(st, st1, name, EndsWith(true, prompt.value))
            else st1 == st.(active := st.active[name := s.(aborted := true)])
  {
    hide OnSessionFinished, QueueShape, QueueHasClients, Deliver;
    var s := st.active[name];
    if !s.started {
      FinishOutcome(st, name, Error, {}, envs);
    } else {
      var marked := st.(active := st.active[name := s.(aborted := true)]);
      assert s.(aborted := true).(started := true) == s.(aborted := true);
      assert marked.active[name := s.(aborted := true)] == marked.active;
      SameShape(st, marked);
      if prompt.Some? {
        SignalOutcome(marked, name, prompt.value, envs);
      }
    }
  }
}
