/** No session ends in silence: the final statuses that any stretch of a run announces are exactly
    those of the sessions that end in it, and the answers to requests that meet no session. */
module SchedulerEndings {
  import opened Wrappers
  import opened StorageBooking
  import opened SyncProfiles
  import opened Ledger
  import opened Scheduler
  import opened SchedulerInvariant
  import opened SchedulerRuns
  import opened SchedulerTheorems

  ghost function Finals(trace: seq<Emission>): multiset<string> {
    if trace == [] then multiset{}
    else
      var e := trace[|trace| - 1];
      Finals(trace[..|trace| - 1]) + if Final(e.status) then multiset{e.profile} else multiset{}
  }

  // From `a` to `b` each ended session had one final status, and the other final statuses are `stray`.
  ghost predicate Accounts(a: State, b: State, stray: multiset<string>) {
    && a.trace <= b.trace && a.ended <= b.ended
    && Finals(b.trace[|a.trace|..]) == (b.ended - a.ended) + stray
  }

  lemma {:induction false} FinalsConcat(a: seq<Emission>, b: seq<Emission>)
    ensures Finals(a + b) == Finals(a) + Finals(b)
  {
    if b == [] {
      assert a + b == a;
    } else {
      var n := |b| - 1;
      assert (a + b)[..|a| + n] == a + b[..n];
      FinalsConcat(a, b[..n]);
    }
  }

  lemma AccountsTransitive(a: State, b: State, c: State, x: multiset<string>, y: multiset<string>)
    requires Accounts(a, b, x) && Accounts(b, c, y)
    ensures Accounts(a, c, x + y)
  {
    assert c.trace[|a.trace|..] == b.trace[|a.trace|..] + c.trace[|b.trace|..];
    FinalsConcat(b.trace[|a.trace|..], c.trace[|b.trace|..]);
  }

  // A stretch with a single announcement.
  lemma OneEmission(a: State, b: State, name: string, status: Status)
    requires b.trace == a.trace + [Emission(name, status)]
    requires b.ended == a.ended || (Final(status) && b.ended == a.ended + multiset{name})
    ensures Accounts(a, b, if Final(status) && b.ended == a.ended then multiset{name} else multiset{})
  {
    assert b.trace[|a.trace|..] == [Emission(name, status)];
    assert [Emission(name, status)][..0] == [];
    assert b.ended == a.ended + multiset{name} ==> b.ended - a.ended == multiset{name};
  }

  lemma NoEmission(a: State, b: State)
    requires b.trace == a.trace && b.ended == a.ended
    ensures Accounts(a, b, multiset{})
  {
    assert b.trace[|a.trace|..] == [];
  }

  lemma AccountsThen(a: State, b: State, c: State, x: multiset<string>)
    requires Accounts(a, b, x) && Accounts(b, c, multiset{})
    ensures Accounts(a, c, x)
  {
    hide Accounts;
    AccountsTransitive(a, b, c, x, multiset{});
    assert x + multiset{} == x;
  }

  // Booking and starting are silent and end nothing.
  lemma TryingIsSilent(st: State, s: Session, env: Env)
    ensures var (st1, s1, _) := ReserveFor(st, s);
            && st1.trace == st.trace && st1.ended == st.ended && s1.profile == s.profile
    ensures var (st1, s1, _) := StartSyncNow(st, s, env);
            st1.trace == st.trace && st1.ended == st.ended && s1.profile == s.profile
    ensures var st1 := Cleanup(st, s, Backends(s));
            st1.trace == st.trace && st1.ended == st.ended + multiset{s.profile.name}
  {
    hide ReserveFor, StartSyncNow, Cleanup;
    ReserveFrame(st, s);
    StartNowFrame(st, s, env);
    CleanupFrame(st, s);
  }

  lemma EndedAccounts(st: State, mid: State, name: string, s: Session)
    requires s.profile.name == name && mid.trace == st.trace && mid.ended == st.ended
    ensures Accounts(st, Cleanup(Emit(mid, name, Error), s, Backends(s)), multiset{})
  {
    hide Backends, Accounts;
    OneEmission(st, Cleanup(Emit(mid, name, Error), s, Backends(s)), name, Error);
  }

  lemma TriedAccounts(st: State, mid: State, name: string, s: Session, env: Env)
    requires s.profile.name == name && mid.trace == st.trace && mid.ended == st.ended
    ensures var (st1, s1, ok) := StartSyncNow(mid, s, env);
            Accounts(st, if ok then Emit(st1, name, Started) else Cleanup(Emit(st1, name, Error), s1, Backends(s1)),
                     multiset{})
  {
    hide Backends, StartSyncNow, Cleanup, Accounts;
    TryingIsSilent(mid, s, env);
    var (st1, s1, ok) := StartSyncNow(mid, s, env);
    if ok {
      OneEmission(st, Emit(st1, name, Started), name, Started);
    } else {
      EndedAccounts(st, st1, name, s1);
    }
  }

  lemma StartFreshAccounts(st: State, name: string, s: Session, env: Env)
    requires s.profile.name == name
    ensures Accounts(st, StartFresh(st, name, s, env).0, multiset{})
  {
    hide Backends, ReserveFor, StartSyncNow, Cleanup, ClientActive, Accounts;
    var (st1, s1, reserved) := ReserveFor(st, s);
    TryingIsSilent(st, s, env);
    if s.profile.client.Some? && ClientActive(st, s.profile.client.value) {
      OneEmission(st, Emit(Enqueue(st, s), name, Queued), name, Queued);
    } else if !s.profile.valid || (s.scheduled && (env.lowPower || env.powerSave)) {
      EndedAccounts(st, st, name, s);
    } else if !reserved {
      OneEmission(st, Emit(Enqueue(st1, s1), name, Queued), name, Queued);
    } else {
      TriedAccounts(st, st1, name, s1, env);
    }
  }

  // Answers to a start that meets no session.
  ghost predicate StartIsStray(st: State, name: string, found: Option<SyncProfile>) {
    st.backup.on
    || (name !in st.active && !IsQueued(st.queue, name) && (found.None? || !found.value.enabled))
  }

  lemma StartSyncAccounts(st: State, name: string, scheduled: bool, found: Option<SyncProfile>, env: Env)
    requires found.Some? ==> found.value.name == name
    ensures Accounts(st, StartSync(st, name, scheduled, found, env).0,
                     if StartIsStray(st, name, found) then multiset{name} else multiset{})
  {
    hide StartFresh, Accounts;
    var after := StartSync(st, name, scheduled, found, env).0;
    if st.backup.on {
      OneEmission(st, after, name, NotPossible);
    } else if name in st.active {
      NoEmission(st, after);
    } else if IsQueued(st.queue, name) {
      OneEmission(st, after, name, Queued);
    } else if found.None? || !found.value.enabled {
      OneEmission(st, after, name, Error);
    } else {
      var st1 := st.(created := st.created + 1);
      NoEmission(st, st1);
      StartFreshAccounts(st1, name, Session(found.value, scheduled, false, false, false, false), env);
      AccountsThen(st, st1, after, multiset{});
    }
  }

  lemma StartNextSyncAccounts(st: State, envs: string -> Env)
    requires QueueHasClients(st.queue)
    ensures Accounts(st, StartNextSync(st, envs).0, multiset{})
  {
    hide Accounts, Backends, ReserveFor, StartSyncNow, Cleanup, ClientActive;
    var after := StartNextSync(st, envs).0;
    if st.queue != [] {
      var s := st.queue[0];
      var env := envs(s.profile.name);
      var rest := st.(queue := st.queue[1..]);
      TryingIsSilent(rest, s, env);
      var (st1, s1, _) := ReserveFor(rest, s);
      TryingIsSilent(st1, s1, env);
      var (st2, s2, _) := StartSyncNow(st1, s1, env);
      TryingIsSilent(st2, s2, env);
    }
    if after.trace == st.trace {
      NoEmission(st, after);
    } else {
      OneEmission(st, after, st.queue[0].profile.name, after.trace[|st.trace|].status);
    }
  }

  lemma {:induction false} DrainAccounts(st: State, envs: string -> Env)
    requires QueueHasClients(st.queue)
    ensures Accounts(st, Drain(st, envs), multiset{})
    decreases |st.queue|
  {
    StartNextSyncAccounts(st, envs);
    hide StartNextSync, Accounts;
    var (st1, again) := StartNextSync(st, envs);
    if again {
      DrainAccounts(st1, envs);
      AccountsThen(st, st1, Drain(st1, envs), multiset{});
    }
  }

  lemma FinishAccounts(st: State, name: string, status: Status, acquired: set<string>, envs: string -> Env)
    requires Final(status) && QueueHasClients(st.queue)
    requires name in st.active ==> st.active[name].profile.name == name
    ensures Accounts(st, OnSessionFinished(st, name, status, acquired, envs),
                     if name in st.active then multiset{} else multiset{name})
  {
    hide BackendNames, EnableStorages, Released, Drain, Accounts;
    var retired := Retire(st, name, status, acquired);
    assert retired.trace == st.trace && retired.queue == st.queue;
    assert retired.ended == if name in st.active then st.ended + multiset{name} else st.ended;
    var told := Emit(retired, name, status);
    OneEmission(st, told, name, status);
    DrainAccounts(told, envs);
    var stray := if name in st.active then multiset{} else multiset{name};
    AccountsThen(st, told, Drain(told, envs), stray);
  }

  // What a session reports of itself ends it, if it is final.
  lemma DeliverAccounts(st: State, name: string, signal: Signal, envs: string -> Env)
    requires QueueHasClients(st.queue)
    requires name in st.active && st.active[name].profile.name == name
    ensures Accounts(st, Deliver(st, name, signal, envs), multiset{})
  {
    hide OnSessionFinished, Accounts;
    var (s, announced) := React(st.active[name], signal);
    var st1 := st.(active := st.active[name := s]);
    NoEmission(st, st1);
    if announced.Some? {
      FinishAccounts(st1, name, announced.value, AcquiredBy(signal), envs);
      AccountsThen(st, st1, Deliver(st, name, signal, envs), multiset{});
    }
  }

  lemma AbortActiveAccounts(st: State, name: string, prompt: Option<Signal>, envs: string -> Env)
    requires QueueHasClients(st.queue)
    requires name in st.active && st.active[name].profile.name == name
    ensures Accounts(st, AbortActive(st, name, prompt, envs), multiset{})
  {
    hide OnSessionFinished, Deliver, Accounts;
    if !st.active[name].started {
      FinishAccounts(st, name, Error, {}, envs);
    } else {
      var st1 := st.(active := st.active[name := st.active[name].(aborted := true)]);
      NoEmission(st, st1);
      if prompt.Some? {
        DeliverAccounts(st1, name, prompt.value, envs);
        AccountsThen(st, st1, AbortActive(st, name, prompt, envs), multiset{});
      }
    }
  }

  lemma AbortSyncAccounts(st: State, name: string, prompt: Option<Signal>, envs: string -> Env)
    requires QueueHasClients(st.queue)
    requires name in st.active ==> st.active[name].profile.name == name
    ensures Accounts(st, AbortSync(st, name, prompt, envs),
                     if name in st.active || IsQueued(st.queue, name) then multiset{} else multiset{name})
  {
    hide AbortActive, Accounts, BackendNames, Released;
    if name in st.active {
      AbortActiveAccounts(st, name, prompt, envs);
    } else {
      OneEmission(st, AbortSync(st, name, prompt, envs), name, Cancelled);
    }
  }

  lemma SoundMeansNamed(st: State, n: string)
    requires Sound(st) && n in st.active
    ensures st.active[n].profile.name == n
  {
    hide Balanced, Live, QueueShape;
    assert ActiveOk(n, st.active[n]);
  }

  lemma {:induction false} AbortAllAccounts(st: State, order: seq<string>, prompts: map<string, Signal>)
    requires Sound(st) && QueueHasClients(st.queue) && st.backup.on
    requires HandshakeBut(st, set n | n in order) && PromptsReleaseWhatWasReserved(st, prompts)
    ensures Accounts(st, AbortAll(st, order, prompts), multiset{})
    decreases |order|
  {
    hide Sound, AbortActive, Accounts;
    if order == [] {
      NoEmission(st, st);
    } else {
      var n := order[0];
      var envs := _ => Env(false, false, false, false);
      if n in st.active {
        var st1 := AbortActive(st, n, PromptOf(prompts, n), envs);
        SoundMeansStarted(st, n);
        SoundMeansNamed(st, n);
        AbortActiveAccounts(st, n, PromptOf(prompts, n), envs);
        AbortActiveKeepsSound(st, n, PromptOf(prompts, n), envs);
        AbortActiveKeepsHandshake(st, n, PromptOf(prompts, n), envs, set n | n in order);
        assert HandshakeBut(st1, set n | n in order[1..]);
        assert PromptsReleaseWhatWasReserved(st1, prompts);
        AbortAllAccounts(st1, order[1..], prompts);
        AccountsThen(st, st1, AbortAll(st, order, prompts), multiset{});
      } else {
        assert HandshakeBut(st, set n | n in order[1..]);
        AbortAllAccounts(st, order[1..], prompts);
      }
    }
  }

  lemma BackupStartsAccounts(st: State, order: seq<string>, prompts: map<string, Signal>)
    requires Good(st) && QueueHasClients(st.queue)
    requires (set n | n in order) == st.active.Keys && PromptsReleaseWhatWasReserved(st, prompts)
    ensures Accounts(st, BackupStarts(st, order, prompts), multiset{})
  {
    hide Sound, AbortAll, Accounts;
    var st1 := DelayReply(st, true);
    NoEmission(st, st1);
    if |st1.active| == 0 {
      NoEmission(st, SendReply(st1));
    } else {
      SoundIgnoresBackup(st, st1);
      assert HandshakeBut(st1, set n | n in order);
      assert PromptsReleaseWhatWasReserved(st1, prompts);
      AbortAllAccounts(st1, order, prompts);
      AccountsThen(st, st1, AbortAll(st1, order, prompts), multiset{});
    }
  }

  // The name a slot announces as ended although no session of that name ends: a start during a
  // backup or of a profile that is missing or disabled, a late finish, and an abort of nothing.
  ghost function Stray(st: State, e: Event): multiset<string> {
    match e
    case Start(name, _, found, _) => if StartIsStray(st, name, found) then multiset{name} else multiset{}
    case StaleFinish(name, _, _, _) => if name in st.active then multiset{} else multiset{name}
    case Abort(name, _, _) => if name in st.active || IsQueued(st.queue, name) then multiset{} else multiset{name}
    case _ => multiset{}
  }

  /** Whatever ends within a slot is announced within it, once each. */
  lemma StepAccounts(st: State, e: Event)
    requires Good(st) && QueueHasClients(st.queue) && Allowed(st, e)
    ensures Accounts(st, Step(st, e), Stray(st, e))
  {
    hide Sound, Handshake, Accounts, Deliver, Drain, StartSync, OnSessionFinished, AbortSync, BackupStarts;
    match e {
      case Start(name, scheduled, found, env) => StartSyncAccounts(st, name, scheduled, found, env);
      case Signalled(name, signal, envs) =>
        if name in st.active {
          SoundMeansNamed(st, name);
          DeliverAccounts(st, name, signal, envs);
        } else {
          NoEmission(st, st);
        }
      case StaleFinish(name, status, acquired, envs) =>
        if name in st.active { SoundMeansNamed(st, name); }
        FinishAccounts(st, name, status, acquired, envs);
      case Abort(name, prompt, envs) =>
        if name in st.active { SoundMeansNamed(st, name); }
        AbortSyncAccounts(st, name, prompt, envs);
      case Request(names, client) => NoEmission(st, RequestStorages(st, names, client));
      case Give(names) => NoEmission(st, ReleaseExternal(st, names));
      case StorageReleased(envs) => DrainAccounts(st, envs);
      case BackupStart(order, prompts) => BackupStartsAccounts(st, order, prompts);
      case BackupFinish => NoEmission(st, BackupFinishes(st));
    }
  }

  ghost function Strays(st: State, es: seq<Event>): multiset<string>
    decreases |es|
  {
    if es == [] || !QueueHasClients(st.queue) then multiset{} else Stray(st, es[0]) + Strays(Step(st, es[0]), es[1..])
  }

  /** And so for every stretch of a run. */
  lemma {:induction false} RunAccounts(st: State, es: seq<Event>, st1: State)
    requires Good(st) && Reaches(st, es, st1)
    ensures Accounts(st, st1, Strays(st, es))
    decreases |es|
  {
    hide Good, Step, Allowed, Accounts, Stray, QueueHasClients;
    if es == [] {
      NoEmission(st, st1);
    } else {
      StepKeepsGood(st, es[0]);
      StepAccounts(st, es[0]);
      RunAccounts(Step(st, es[0]), es[1..], st1);
      AccountsTransitive(st, Step(st, es[0]), st1, Stray(st, es[0]), Strays(Step(st, es[0]), es[1..]));
    }
  }
}
