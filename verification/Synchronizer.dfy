/** The daemon's own classes. Each slot is proved to do to the objects exactly what the state
    machine of Scheduler.dfy says, so everything proved about runs holds of them. */
module Synchronizing {
  import opened Wrappers
  import opened StorageBooking
  import opened SyncProfiles
  import opened Ledger
  import opened Scheduler
  import Theorems = SchedulerTheorems
  import SchedulerRuns

  class SyncSession {
    var profile: SyncProfile
    const scheduled: bool
    var started: bool
    var aborted: bool
    var finished: bool
    var booker: StorageBooker?

    ghost function View(): Session reads this {
      Session(profile, scheduled, started, aborted, finished, booker != null)
    }

    constructor (profile: SyncProfile, scheduled: bool)
      ensures View() == Session(profile, scheduled, false, false, false, false)
    {
      this.profile := profile;
      this.scheduled := scheduled;
      started, aborted, finished, booker := false, false, false, null;
    }

    // A runner that is handed over counts as started already.
    method SetPluginRunner()
      modifies this
      ensures View() == old(View()).(started := true) && booker == old(booker)
    {
      started := true;
    }

    method TryStart(runnerStarts: bool) returns (rv: bool)
      modifies this
      ensures View() == Scheduler.TryStart(old(View()), runnerStarts) && rv == runnerStarts && booker == old(booker)
    {
      started := runnerStarts;
      rv := started;
    }

    method Start(env: Env) returns (rv: bool)
      modifies this
      ensures (View(), rv) == Begin(old(View()), env) && booker == old(booker)
      ensures rv == ((profile.online && !scheduled) || env.runnerStarts)
      ensures View() == old(View()).(started := if profile.online && !scheduled then old(started) else rv)
    {
      if profile.online && !scheduled {
        rv := true;
      } else {
        rv := TryStart(env.runnerStarts);
      }
    }

    // Without a started runner the session only announces an error.
    method Abort() returns (announced: Option<Status>)
      modifies this
      ensures announced == if old(started) then None else Some(Error)
      ensures View() == if old(started) then old(View()).(aborted := true) else old(View())
      ensures booker == old(booker)
    {
      if !started {
        announced := Some(Error);
      } else {
        aborted := true;
        announced := None;
      }
    }

    method OnSuccess() returns (announced: Option<Status>)
      modifies this
      ensures forall acquired :: (View(), announced) == React(old(View()), Success(acquired))
      ensures announced == Some(if old(aborted) then Aborted else Done)
      ensures View() == old(View()).(finished := true) && booker == old(booker)
    {
      finished := true;
      announced := if !aborted then Some(Done) else Some(Aborted);
    }

    method OnError(unsupported: bool) returns (announced: Option<Status>)
      modifies this
      ensures (View(), announced) == React(old(View()), Failure(unsupported)) && booker == old(booker)
      ensures announced == Some(if unsupported then NotPossible else Error)
      ensures View() == old(View()).(finished := true)
    {
      finished := true;
      announced := Some(if unsupported then NotPossible else Error);
    }

    method OnDone() returns (announced: Option<Status>)
      ensures (View(), announced) == React(View(), Terminated)
      ensures announced == if finished then None else Some(Error)
    {
      announced := if !finished then Some(Error) else None;
    }

    method OnNetworkSessionOpened(runnerStarts: bool) returns (announced: Option<Status>)
      modifies this
      ensures (View(), announced) == React(old(View()), NetworkOpened(runnerStarts)) && booker == old(booker)
      ensures announced == if runnerStarts then None else Some(Error)
      ensures View() == old(View()).(started := runnerStarts)
    {
      var ok := TryStart(runnerStarts);
      announced := if ok then None else Some(Error);
    }

    method OnNetworkSessionError() returns (announced: Option<Status>)
      ensures (View(), announced) == React(View(), NetworkFailed)
      ensures announced == Some(Error)
    {
      announced := Some(Error);
    }

    method OnSignal(signal: Signal) returns (announced: Option<Status>)
      modifies this
      ensures (View(), announced) == React(old(View()), signal) && booker == old(booker)
    {
      match signal {
        case Success(_) => announced := OnSuccess();
        case Failure(unsupported) => announced := OnError(unsupported);
        case Terminated => announced := OnDone();
        case NetworkOpened(runnerStarts) => announced := OnNetworkSessionOpened(runnerStarts);
        case NetworkFailed => announced := OnNetworkSessionError();
      }
    }

    method ReserveStorages(b: StorageBooker) returns (success: bool)
      requires b.Valid()
      modifies this`booker, b
      ensures b.Valid()
      ensures success == old(AllAvailable(b.items, Backends(View()), profile.name))
      ensures b.items == if success then Granted(old(b.items), old(Backends(View())), profile.name) else old(b.items)
      ensures booker == if success then b else old(booker)
    {
      success := b.ReserveStorages(BackendNames(profile.storages), profile.name);
      if success {
        booker := b;
      }
    }

    method ReleaseStorages()
      requires booker != null ==> booker.Valid()
      modifies this`booker, booker
      ensures booker == null
      ensures old(booker) != null ==>
                old(booker).Valid()
                && old(booker).items == Released(old(booker.items), BackendNames(profile.storages))
    {
      if booker != null {
        booker.ReleaseStorages(BackendNames(profile.storages));
      }
      booker := null;
    }
  }

  class SyncQueue {
    var items: seq<SyncSession>

    constructor ()
      ensures items == []
    {
      items := [];
    }

    method Enqueue(session: SyncSession)
      modifies this
      ensures items == old(items) + [session]
    {
      items := items + [session];
    }

    method Dequeue() returns (p: SyncSession?)
      modifies this
      ensures old(items) == [] ==> p == null && items == []
      ensures old(items) != [] ==> p == old(items)[0] && items == old(items)[1..]
    {
      p := null;
      if items != [] {
        p := items[0];
        items := items[1..];
      }
    }

    // The first session of that name, standing at k, leaves the queue.
    method DequeueNamed(name: string) returns (r: SyncSession?, ghost k: nat)
      modifies this
      ensures r == null ==> items == old(items) && forall s | s in items :: s.profile.name != name
      ensures r != null ==>
                && k < |old(items)| && r == old(items)[k] && r.profile.name == name
                && (forall j | 0 <= j < k :: old(items)[j].profile.name != name)
                && items == old(items)[..k] + old(items)[k + 1..]
    {
      r, k := null, 0;
      var i := 0;
      while i < |items|
        invariant 0 <= i <= |items| && items == old(items)
        invariant forall j | 0 <= j < i :: items[j].profile.name != name
      {
        if items[i].profile.name == name {
          r, k := items[i], i;
          items := items[..i] + items[i + 1..];
          return;
        }
        i := i + 1;
      }
    }

    method Head() returns (p: SyncSession?)
      ensures p == if items == [] then null else items[0]
    {
      p := if items == [] then null else items[0];
    }

    method Contains(name: string) returns (r: bool)
      ensures r <==> exists s: SyncSession :: s in items && s.profile.name == name
    {
      for i := 0 to |items|
        invariant forall j | 0 <= j < i :: items[j].profile.name != name
      {
        if items[i].profile.name == name {
          return true;
        }
      }
      return false;
    }
  }

  class SyncBackup {
    var backupRestore: bool
    var replyPending: bool
    ghost var requests: nat
    ghost var replies: nat
    ghost var dropped: nat

    ghost function View(): Backup reads this {
      Backup(backupRestore, replyPending, requests, replies, dropped)
    }

    constructor ()
      ensures View() == Backup(false, false, 0, 0, 0)
    {
      backupRestore, replyPending := false, false;
      requests, replies, dropped := 0, 0, 0;
    }

    // A reply that is still pending is overwritten.
    method SendDelayReply()
      modifies this
      ensures View() == old(Backup(backupRestore, true, requests + 1, replies, dropped + if replyPending then 1 else 0))
    {
      if replyPending {
        dropped := dropped + 1;
      }
      replyPending := true;
      requests := requests + 1;
    }

    method SendReply()
      modifies this
      ensures View() == if old(replyPending)
                        then old(View()).(owed := false, replies := old(replies) + 1) else old(View())
    {
      if replyPending {
        replies := replies + 1;
        replyPending := false;
      }
    }

    method SetState(on: bool)
      modifies this
      ensures View() == old(Backup(on, true, requests + 1, replies, dropped + if replyPending then 1 else 0))
    {
      backupRestore := on;
      SendDelayReply();
    }
  }

  // The sessions behind the references.
  ghost function QueueView(q: seq<SyncSession>): (r: seq<Session>)
    reads q
    ensures |r| == |q|
    ensures forall i | 0 <= i < |q| :: r[i] == q[i].View()
  {
    if q == [] then [] else [q[0].View()] + QueueView(q[1..])
  }

  lemma QueueViewBack(q: seq<SyncSession>, s: SyncSession)
    ensures QueueView(q + [s]) == QueueView(q) + [s.View()]
  {
    hide BackendNames;
  }

  ghost function ActiveView(m: map<string, SyncSession>): map<string, Session>
    reads m.Values
  {
    map n | n in m :: m[n].View()
  }

  // What the theorems promise of the step.
  lemma StaysGood(st: State, e: Theorems.Event)
    ensures Theorems.Good(st) && Theorems.Allowed(st, e) ==>
              QueueHasClients(st.queue) && Theorems.Good(Theorems.Step(st, e))
  {
    hide Theorems.Step, Theorems.Allowed;
    if Theorems.Good(st) && Theorems.Allowed(st, e) {
      SchedulerRuns.SoundMeansClients(st);
      Theorems.StepKeepsGood(st, e);
    }
  }

  lemma WaitsIff(q: seq<SyncSession>, name: string)
    ensures IsQueued(QueueView(q), name) <==> exists s: SyncSession :: s in q && s.profile.name == name
  {
    hide QueueView;
    if IsQueued(QueueView(q), name) {
      var i :| 0 <= i < |q| && QueueView(q)[i].profile.name == name;
      assert q[i] in q && q[i].profile.name == name;
    }
    if s: SyncSession :| s in q && s.profile.name == name {
      var i :| 0 <= i < |q| && q[i] == s;
      assert QueueView(q)[i].profile.name == name;
    }
  }

  // The state in which a finished session is let go of: the acquired storages are on.
  ghost function Acquired(st: State, name: string, status: Status, acquired: set<string>): State
    requires name in st.active
  {
    var s := st.active[name];
    if !status.Done? then st
    else
      var on := s.profile.(storages := EnableStorages(s.profile.storages, acquired));
      st.(active := st.active[name := s.(profile := on)])
  }

  lemma RetireIs(st: State, name: string, status: Status, acquired: set<string>)
    ensures name !in st.active ==> Retire(st, name, status, acquired) == st
    ensures name in st.active ==>
              var st1 := Acquired(st, name, status, acquired);
              var s := st1.active[name];
              var st2 := Cleanup(st1.(active := st1.active - {name}), s, Backends(s));
              && Retire(st, name, status, acquired)
                 == (if s.aborted && |st2.active| == 0 && st2.backup.on then SendReply(st2) else st2)
  {
    hide EnableStorages, BackendNames, Released, SendReply;
    if name in st.active {
      assert Acquired(st, name, status, acquired).active - {name} == st.active - {name};
    }
  }

  lemma IndexIs(q: seq<Session>, name: string, k: nat)
    requires k < |q| && q[k].profile.name == name && forall j | 0 <= j < k :: q[j].profile.name != name
    ensures IsQueued(q, name) && IndexOf(q, name) == k
  {}

  lemma RemovedFrom(m: map<string, SyncSession>, name: string)
    requires name in m && forall a, b | a in m && b in m && a != b :: m[a] != m[b]
    ensures (m - {name}).Values == m.Values - {m[name]}
  {
    forall s | s in m.Values - {m[name]} ensures s in (m - {name}).Values {
      var n :| n in m && m[n] == s;
      assert (m - {name})[n] == s;
    }
  }

  ghost predicate NoTwice(q: seq<SyncSession>) {
    forall i, j | 0 <= i < j < |q| :: q[i] != q[j]
  }

  lemma CutFrom(q: seq<SyncSession>, k: nat)
    requires k < |q| && NoTwice(q)
    ensures var r := q[..k] + q[k + 1..];
            NoTwice(r) && (set s | s in r) == (set s | s in q) - {q[k]}
  {
    var r := q[..k] + q[k + 1..];
    forall s | s in q && s != q[k] ensures s in r {
      var i :| 0 <= i < |q| && q[i] == s;
      assert r[if i < k then i else i - 1] == s;
    }
  }

  lemma QueueViewCut(q: seq<SyncSession>, k: nat)
    requires k < |q|
    ensures QueueView(q[..k] + q[k + 1..]) == QueueView(q)[..k] + QueueView(q)[k + 1..]
  {
    hide QueueView;
  }

  lemma StillHaveClients(st: State, envs: string -> Env)
    requires QueueHasClients(st.queue)
    ensures QueueHasClients(StartNextSync(st, envs).0.queue)
  {
    hide Granted, Released, BackendNames, AllAvailable, ClientActive;
  }

  lemma DelayReplyFrame(st: State, on: bool)
    ensures var st1 := DelayReply(st, on); st1.queue == st.queue && st1.active == st.active && st1.backup.on == on
  {}

  class Synchronizer {
    const storageBooker: StorageBooker
    const syncQueue: SyncQueue
    const syncBackup: SyncBackup
    var activeSessions: map<string, SyncSession>
    ghost var created: nat
    ghost var ended: multiset<string>
    ghost var trace: seq<Emission>
    ghost var external: multiset<string>
    ghost var surplus: multiset<string>

    ghost function Sessions(): set<SyncSession>
      reads this`activeSessions, syncQueue
    {
      activeSessions.Values + set s | s in syncQueue.items
    }

    // Each live session object stands in one place only, and whoever holds storages holds ours.
    ghost predicate Valid()
      reads this`activeSessions, storageBooker, syncQueue, Sessions()
    {
      && storageBooker.Valid()
      && (forall a, b | a in activeSessions && b in activeSessions && a != b :: activeSessions[a] != activeSessions[b])
      && NoTwice(syncQueue.items)
      && (forall s | s in syncQueue.items :: s !in activeSessions.Values)
      && (forall s | s in Sessions() :: s.booker == null || s.booker == storageBooker)
    }

    ghost function View(): State
      reads this, storageBooker, syncQueue, syncBackup, Sessions()
    {
      State(storageBooker.items, ActiveView(activeSessions), QueueView(syncQueue.items), syncBackup.View(),
            created, ended, trace, external, surplus)
    }

    // The slot is called as the theorems assume.
    ghost predicate MayTake(e: Theorems.Event)
      reads this, storageBooker, syncQueue, syncBackup, Sessions()
    {
      Theorems.Good(View()) && Theorems.Allowed(View(), e)
    }

    constructor ()
      ensures Valid() && View() == INITIAL
      ensures fresh(storageBooker) && fresh(syncQueue) && fresh(syncBackup) && Sessions() == {}
    {
      storageBooker := new StorageBooker();
      syncQueue := new SyncQueue();
      syncBackup := new SyncBackup();
      activeSessions := map[];
      created, ended, trace, external, surplus := 0, multiset{}, [], multiset{}, multiset{};
    }

    // A session in hand: not yet, or no longer, in the map or the queue.
    ghost predicate InHand(s: SyncSession)
      reads this`activeSessions, syncQueue, s`booker
    {
      s !in Sessions() && (s.booker == null || s.booker == storageBooker)
    }

    ghost method EmitStatus(name: string, status: Status)
      modifies this`trace
      ensures View() == old(Emit(View(), name, status))
      ensures old(Valid()) ==> Valid()
    {
      trace := trace + [Emission(name, status)];
    }

    ghost method CountSession()
      modifies this`created
      ensures View() == old(View()).(created := old(View()).created + 1)
      ensures old(Valid()) ==> Valid()
    {
      created := created + 1;
    }

    // What the decisions look at.
    lemma Looks()
      ensures View().backup.on == syncBackup.backupRestore
      ensures View().active.Keys == activeSessions.Keys
      ensures |View().queue| == |syncQueue.items|
      ensures syncQueue.items != [] ==> View().queue[0] == syncQueue.items[0].View()
    {
      hide BackendNames;
    }

    lemma LooksEmpty()
      ensures |View().active| == |activeSessions|
    {
      hide BackendNames, QueueView;
      assert View().active.Keys == activeSessions.Keys;
      assert |View().active.Keys| == |activeSessions.Keys|;
    }

    method ClientProfileActive(client: string) returns (r: bool)
      requires Valid()
      ensures Valid() && View() == old(View())
      ensures r == ClientActive(View(), client)
    {
      var names := activeSessions.Keys;
      while names != {}
        invariant names <= activeSessions.Keys
        invariant forall n | n in activeSessions && n !in names ::
                    activeSessions[n].View().profile.client != Some(client)
      {
        var n :| n in names;
        if activeSessions[n].profile.client == Some(client) {
          assert View().active[n].profile.client == Some(client);
          return true;
        }
        names := names - {n};
      }
      return false;
    }

    // The session's storages, as far as they can be booked.
    method ReserveFor(s: SyncSession) returns (success: bool)
      requires Valid() && InHand(s)
      modifies s`booker, storageBooker, this`surplus
      ensures Valid() && InHand(s)
      ensures (View(), s.View(), success) == old(Scheduler.ReserveFor(View(), s.View()))
    {
      hide BackendNames, Granted, AllAvailable, WellCounted;
      ghost var held := s.booker != null;
      success := s.ReserveStorages(storageBooker);
      if success && held {
        surplus := surplus + multiset(Backends(s.View()));
      }
    }

    method CleanupSession(s: SyncSession)
      requires Valid() && InHand(s)
      modifies s`booker, storageBooker, this`ended
      ensures Valid()
      ensures View() == old(Scheduler.Cleanup(View(), s.View(), Backends(s.View())))
    {
      hide QueueView, ActiveView, BackendNames, Released, WellCounted, NoTwice;
      s.ReleaseStorages();
      ended := ended + multiset{s.profile.name};
    }

    method StartSyncNow(s: SyncSession, env: Env) returns (r: bool)
      requires Valid() && InHand(s)
      modifies s, this`activeSessions
      ensures Valid() && s.booker == old(s.booker)
      ensures (View(), s.View(), r) == old(Scheduler.StartSyncNow(View(), s.View(), env))
      ensures !r ==> InHand(s)
      ensures Sessions() <= old(Sessions()) + {s}
    {
      hide QueueView, BackendNames, WellCounted, NoTwice;
      if syncBackup.backupRestore || s.profile.client.None? {
        return false;
      }
      s.SetPluginRunner();
      if !env.runnerInits {
        return false;
      }
      r := s.Start(env);
      if r {
        Activate(s);
      }
    }

    method Activate(s: SyncSession)
      requires Valid() && InHand(s)
      modifies this`activeSessions
      ensures Valid()
      ensures View() == old(View()).(active := old(View()).active[s.profile.name := s.View()])
      ensures Sessions() <= old(Sessions()) + {s}
    {
      hide QueueView, BackendNames, WellCounted;
      activeSessions := activeSessions[s.profile.name := s];
      assert ActiveView(activeSessions) == old(ActiveView(activeSessions))[s.profile.name := s.View()];
    }

    method EnqueueSession(s: SyncSession)
      requires Valid() && InHand(s)
      modifies syncQueue
      ensures Valid() && Sessions() == old(Sessions()) + {s}
      ensures View() == old(Scheduler.Enqueue(View(), s.View()))
    {
      hide BackendNames, WellCounted, ActiveView, QueueView;
      QueueViewBack(syncQueue.items, s);
      syncQueue.Enqueue(s);
      assert ActiveView(activeSessions) == old(ActiveView(activeSessions));
    }

    method IsWaiting(name: string) returns (r: bool)
      requires Valid()
      ensures Valid() && View() == old(View())
      ensures r == IsQueued(View().queue, name)
    {
      hide BackendNames, QueueView, ActiveView, NoTwice, IsQueued;
      r := syncQueue.Contains(name);
      WaitsIff(syncQueue.items, name);
    }

    method StartSync(name: string, scheduled: bool, found: Option<SyncProfile>, env: Env) returns (r: bool)
      requires Valid()
      modifies this, storageBooker, syncQueue
      ensures Valid() && fresh(Sessions() - old(Sessions()))
      ensures (View(), r) == old(Scheduler.StartSync(View(), name, scheduled, found, env))
      ensures old(MayTake(Theorems.Start(name, scheduled, found, env))) ==> Theorems.Good(View())
    {
      hide Scheduler.StartFresh, Valid, View, InHand, Emit, Theorems.Good, Theorems.Allowed;
      StaysGood(View(), Theorems.Start(name, scheduled, found, env));
      Looks();
      if syncBackup.backupRestore {
        EmitStatus(name, NotPossible);
        return false;
      }
      if name in activeSessions {
        return true;
      }
      var queued := IsWaiting(name);
      if queued {
        EmitStatus(name, Queued);
        return true;
      }
      if found.None? || !found.value.enabled {
        EmitStatus(name, Error);
        return false;
      }
      CountSession();
      var s := NewSession(found.value, scheduled);
      r := StartFresh(name, s, env);
    }

    method NewSession(profile: SyncProfile, scheduled: bool) returns (s: SyncSession)
      ensures fresh(s) && InHand(s) && s.View() == Session(profile, scheduled, false, false, false, false)
      ensures old(Valid()) ==> Valid()
      ensures View() == old(View()) && Sessions() == old(Sessions())
    {
      s := new SyncSession(profile, scheduled);
    }

    method StartFresh(name: string, s: SyncSession, env: Env) returns (r: bool)
      requires Valid() && InHand(s)
      modifies this, storageBooker, syncQueue, s
      ensures Valid() && Sessions() <= old(Sessions()) + {s}
      ensures (View(), r) == old(Scheduler.StartFresh(View(), name, s.View(), env))
    {
      hide Scheduler.Cleanup, Scheduler.ReserveFor, Scheduler.StartSyncNow, Scheduler.Enqueue, ClientActive, Backends,
           Valid, View, InHand, Emit;
      if s.profile.client.Some? {
        var busy := ClientProfileActive(s.profile.client.value);
        if busy {
          EnqueueSession(s);
          EmitStatus(name, Queued);
          return false;
        }
      }
      if !s.profile.valid || (s.scheduled && (env.lowPower || env.powerSave)) {
        EmitStatus(name, Error);
        CleanupSession(s);
        return false;
      }
      var reserved := ReserveFor(s);
      if !reserved {
        EnqueueSession(s);
        EmitStatus(name, Queued);
        return true;
      }
      r := StartSyncNow(s, env);
      if r {
        EmitStatus(name, Started);
      } else {
        EmitStatus(name, Error);
        CleanupSession(s);
      }
    }

    // Books for the head of the queue where it stands.
    method ReserveHead() returns (success: bool)
      requires Valid() && syncQueue.items != []
      modifies syncQueue.items, storageBooker, this`surplus
      ensures Valid()
      ensures var st := old(View());
              var (st1, s1, ok) := Scheduler.ReserveFor(st.(queue := st.queue[1..]), st.queue[0]);
              success == ok && View() == if ok then st1.(queue := [s1] + st1.queue) else st
    {
      hide BackendNames, Granted, AllAvailable, WellCounted, ActiveView, QueueView;
      var s := syncQueue.items[0];
      ghost var held := s.booker != null;
      success := s.ReserveStorages(storageBooker);
      if success && held {
        surplus := surplus + multiset(Backends(s.View()));
      }
      assert QueueView(syncQueue.items) == [s.View()] + old(QueueView(syncQueue.items))[1..];
    }

    // The head leaves the queue and is in hand.
    method DequeueHead() returns (s: SyncSession)
      requires Valid() && syncQueue.items != []
      modifies syncQueue
      ensures Valid() && s == old(syncQueue.items)[0] && InHand(s)
      ensures s.View() == old(View()).queue[0]
      ensures View() == old(View()).(queue := old(View()).queue[1..])
      ensures Sessions() == old(Sessions()) - {s}
    {
      hide BackendNames, WellCounted, ActiveView;
      var p := syncQueue.Dequeue();
      s := p;
      assert old(syncQueue.items) == [s] + syncQueue.items;
      assert QueueView(syncQueue.items) == old(QueueView(syncQueue.items))[1..];
    }

    // The head gets its chance and leaves the queue either way.
    method StartHead(env: Env)
      requires Valid() && syncQueue.items != []
      modifies this, storageBooker, syncQueue, Sessions()
      ensures Valid() && Sessions() <= old(Sessions())
      ensures View() == old(
                var st, s := View(), View().queue[0];
                var (st1, t, ok) := Scheduler.StartSyncNow(st.(queue := st.queue[1..]), s, env);
                if ok then Emit(st1, s.profile.name, Started)
                else Emit(Scheduler.Cleanup(st1, t, Backends(t)), s.profile.name, Error))
    {
      hide Scheduler.Cleanup, Scheduler.StartSyncNow, Backends, Valid, View, InHand, Emit;
      Looks();
      var s := DequeueHead();
      var name := s.profile.name;
      var ok := StartSyncNow(s, env);
      if ok {
        EmitStatus(name, Started);
      } else {
        CleanupSession(s);
        EmitStatus(name, Error);
      }
    }

    method StartNextSync(envs: string -> Env) returns (tryNext: bool)
      requires Valid() && QueueHasClients(View().queue)
      modifies this, storageBooker, syncQueue, Sessions()
      ensures Valid() && Sessions() <= old(Sessions())
      ensures (View(), tryNext) == old(Scheduler.StartNextSync(View(), envs))
    {
      hide Scheduler.Cleanup, Scheduler.StartSyncNow, ClientActive, Backends, Granted, AllAvailable;
      hide Valid, View, InHand, Emit;
      Looks();
      if syncQueue.items == [] || syncBackup.backupRestore {
        return false;
      }
      var head := syncQueue.Head();
      var session: SyncSession := head;
      var profile := session.profile;
      assert View().queue[0].profile == profile;
      var name := profile.name;
      var env := envs(name);
      if session.scheduled && env.lowPower {
        var s := DequeueHead();
        CleanupSession(s);
        EmitStatus(name, Error);
        return true;
      }
      ghost var st := View();
      var reserved := ReserveHead();
      if !reserved {
        return false;
      }
      ghost var st1 := Scheduler.ReserveFor(st.(queue := st.queue[1..]), st.queue[0]).0;
      SameClients(View(), st1);
      var busy := ClientProfileActive(profile.client.value);
      if busy {
        return false;
      }
      StartHead(env);
      return true;
    }

    // The loop of both slots that end with a drain.
    method StartWaitingSyncs(envs: string -> Env)
      requires Valid() && QueueHasClients(View().queue)
      modifies this, storageBooker, syncQueue, Sessions()
      ensures Valid() && Sessions() <= old(Sessions())
      ensures View() == old(Drain(View(), envs))
    {
      hide Scheduler.StartNextSync, Valid, View;
      var again := true;
      while again
        invariant Valid() && Sessions() <= old(Sessions())
        invariant QueueHasClients(View().queue)
        invariant (if again then Drain(View(), envs) else View()) == old(Drain(View(), envs))
        decreases if again then |View().queue| + 1 else 0
      {
        ghost var st := View();
        again := StartNextSync(envs);
        assert Drain(st, envs) == if again then Drain(View(), envs) else View();
        StillHaveClients(st, envs);
      }
    }

    // A successful session's profile has its acquired storages switched on.
    method AcquireStorages(name: string, acquired: set<string>)
      requires Valid() && name in activeSessions
      modifies Sessions()
      ensures Valid() && Sessions() == old(Sessions()) && activeSessions == old(activeSessions)
      ensures var s := old(View()).active[name];
              var on := s.profile.(storages := EnableStorages(s.profile.storages, acquired));
              View() == old(View()).(active := old(View()).active[name := s.(profile := on)])
    {
      hide EnableStorages, BackendNames, WellCounted;
      var session := activeSessions[name];
      assert session !in syncQueue.items by {
        assert session in activeSessions.Values;
      }
      session.profile := session.profile.(storages := EnableStorages(session.profile.storages, acquired));
      assert ActiveView(activeSessions) == old(ActiveView(activeSessions))[name := session.View()];
      assert QueueView(syncQueue.items) == old(QueueView(syncQueue.items));
    }

    // An active session leaves the map.
    method TakeActive(name: string) returns (s: SyncSession)
      requires Valid() && name in activeSessions
      modifies this`activeSessions
      ensures Valid() && InHand(s) && s in old(Sessions()) && Sessions() == old(Sessions()) - {s}
      ensures View() == old(View()).(active := old(View()).active - {name})
      ensures s.View() == old(View()).active[name]
    {
      hide BackendNames, WellCounted, NoTwice, QueueView;
      s := activeSessions[name];
      activeSessions := activeSessions - {name};
      RemovedFrom(old(activeSessions), name);
      assert ActiveView(activeSessions) == old(ActiveView(activeSessions)) - {name};
    }

    method Reply()
      requires Valid()
      modifies syncBackup
      ensures Valid()
      ensures View() == old(SendReply(View()))
    {
      hide QueueView, ActiveView;
      syncBackup.SendReply();
    }

    // An active session is let go of.
    method EndActive(name: string) returns (aborted: bool)
      requires Valid() && name in activeSessions
      modifies this, storageBooker, Sessions()
      ensures Valid() && Sessions() <= old(Sessions())
      ensures var st, s := old(View()), old(View()).active[name];
              && View() == Scheduler.Cleanup(st.(active := st.active - {name}), s, Backends(s))
              && aborted == s.aborted
    {
      hide BackendNames, Valid, View, InHand, Scheduler.Cleanup;
      Looks();
      var session := TakeActive(name);
      aborted := session.aborted;
      CleanupSession(session);
    }

    method Retire(name: string, status: Status, acquired: set<string>)
      requires Valid()
      modifies this, storageBooker, syncQueue, syncBackup, Sessions()
      ensures Valid() && Sessions() <= old(Sessions())
      ensures View() == old(Scheduler.Retire(View(), name, status, acquired))
    {
      hide Scheduler.Retire, EnableStorages, BackendNames, Scheduler.Cleanup, Valid, View, SendReply;
      Looks();
      RetireIs(View(), name, status, acquired);
      if name in activeSessions {
        if status.Done? {
          AcquireStorages(name, acquired);
        }
        var aborted := EndActive(name);
        Looks();
        LooksEmpty();
        if aborted && |activeSessions| == 0 && syncBackup.backupRestore {
          Reply();
        }
      }
    }

    method OnSessionFinished(name: string, status: Status, acquired: set<string>, envs: string -> Env)
      requires Valid() && QueueHasClients(View().queue)
      modifies this, storageBooker, syncQueue, syncBackup, Sessions()
      ensures Valid() && Sessions() <= old(Sessions())
      ensures View() == old(Scheduler.OnSessionFinished(View(), name, status, acquired, envs))
      ensures old(MayTake(Theorems.StaleFinish(name, status, acquired, envs))) ==> Theorems.Good(View())
    {
      hide Valid, View, Theorems.Good, Theorems.Allowed;
      StaysGood(View(), Theorems.StaleFinish(name, status, acquired, envs));
      RetireFrame(View(), name, status, acquired);
      hide Scheduler.Retire, Drain;
      Retire(name, status, acquired);
      EmitStatus(name, status);
      StartWaitingSyncs(envs);
    }

    method OnStorageReleased(envs: string -> Env)
      requires Valid() && QueueHasClients(View().queue)
      modifies this, storageBooker, syncQueue, Sessions()
      ensures Valid() && Sessions() <= old(Sessions())
      ensures View() == old(Drain(View(), envs))
      ensures old(MayTake(Theorems.StorageReleased(envs))) ==> Theorems.Good(View())
    {
      hide Valid, View, Drain, Theorems.Good, Theorems.Allowed;
      StaysGood(View(), Theorems.StorageReleased(envs));
      StartWaitingSyncs(envs);
    }

    method SignalSession(name: string, signal: Signal) returns (announced: Option<Status>)
      requires Valid() && name in activeSessions
      modifies Sessions()
      ensures Valid() && Sessions() == old(Sessions()) && activeSessions == old(activeSessions)
      ensures var (s, out) := React(old(View()).active[name], signal);
              View() == old(View()).(active := old(View()).active[name := s]) && announced == out
    {
      hide React, BackendNames, WellCounted;
      var session := activeSessions[name];
      assert session !in syncQueue.items by {
        assert session in activeSessions.Values;
      }
      announced := session.OnSignal(signal);
      assert ActiveView(activeSessions) == old(ActiveView(activeSessions))[name := session.View()];
      assert QueueView(syncQueue.items) == old(QueueView(syncQueue.items));
    }

    // A plug-in or network signal reaches its session, and the session's own signal its slot.
    method Deliver(name: string, signal: Signal, envs: string -> Env)
      requires Valid() && QueueHasClients(View().queue) && name in View().active
      modifies this, storageBooker, syncQueue, syncBackup, Sessions()
      ensures Valid() && Sessions() <= old(Sessions())
      ensures View() == old(Scheduler.Deliver(View(), name, signal, envs))
      ensures old(MayTake(Theorems.Signalled(name, signal, envs))) ==> Theorems.Good(View())
    {
      hide Scheduler.OnSessionFinished, Valid, View, React, Theorems.Good, Theorems.Allowed;
      StaysGood(View(), Theorems.Signalled(name, signal, envs));
      Looks();
      var announced := SignalSession(name, signal);
      if announced.Some? {
        OnSessionFinished(name, announced.value, AcquiredBy(signal), envs);
      }
    }

    method AbortSession(name: string) returns (announced: Option<Status>)
      requires Valid() && name in activeSessions
      modifies Sessions()
      ensures Valid() && Sessions() == old(Sessions()) && activeSessions == old(activeSessions)
      ensures var was := old(View()).active[name];
              var now := was.(aborted := was.started || was.aborted);
              && View() == old(View()).(active := old(View()).active[name := now])
              && announced == if was.started then None else Some(Error)
    {
      hide BackendNames, WellCounted;
      var session := activeSessions[name];
      assert session !in syncQueue.items by {
        assert session in activeSessions.Values;
      }
      announced := session.Abort();
      assert ActiveView(activeSessions) == old(ActiveView(activeSessions))[name := session.View()];
      assert QueueView(syncQueue.items) == old(QueueView(syncQueue.items));
    }

    method AbortActive(name: string, prompt: Option<Signal>, envs: string -> Env)
      requires Valid() && QueueHasClients(View().queue) && name in View().active
      modifies this, storageBooker, syncQueue, syncBackup, Sessions()
      ensures Valid() && Sessions() <= old(Sessions())
      ensures View() == old(Scheduler.AbortActive(View(), name, prompt, envs))
    {
      hide Scheduler.OnSessionFinished, Scheduler.Deliver, Valid, View;
      Looks();
      ghost var st := View();
      var announced := AbortSession(name);
      if announced.Some? {
        assert View() == st by {
          assert st.active[name := st.active[name]] == st.active;
        }
        OnSessionFinished(name, announced.value, {}, envs);
      } else if prompt.Some? {
        Deliver(name, prompt.value, envs);
      }
    }

    method AbortSync(name: string, prompt: Option<Signal>, envs: string -> Env)
      requires Valid() && QueueHasClients(View().queue)
      modifies this, storageBooker, syncQueue, syncBackup, Sessions()
      ensures Valid() && Sessions() <= old(Sessions())
      ensures View() == old(Scheduler.AbortSync(View(), name, prompt, envs))
      ensures old(MayTake(Theorems.Abort(name, prompt, envs))) ==> Theorems.Good(View())
    {
      hide Scheduler.AbortActive, Scheduler.AbortQueued, Valid, View, Emit, Theorems.Good, Theorems.Allowed;
      StaysGood(View(), Theorems.Abort(name, prompt, envs));
      Looks();
      if name in activeSessions {
        AbortActive(name, prompt, envs);
      } else {
        AbortQueued(name);
        EmitStatus(name, Cancelled);
      }
    }

    // Whatever stands at place k leaves the queue and is in hand.
    lemma CutQueue(items: seq<SyncSession>, k: nat)
      requires k < |items| && syncQueue.items == items[..k] + items[k + 1..]
      requires storageBooker.Valid() && NoTwice(items)
      requires forall a, b | a in activeSessions && b in activeSessions && a != b ::
                 activeSessions[a] != activeSessions[b]
      requires forall s | s in items :: s !in activeSessions.Values
      requires forall s | s in items || s in activeSessions.Values :: s.booker == null || s.booker == storageBooker
      ensures Valid() && InHand(items[k])
      ensures Sessions() == activeSessions.Values + (set s | s in items) - {items[k]}
    {
      CutFrom(items, k);
    }

    method TakeQueued(name: string) returns (s: SyncSession?)
      requires Valid()
      modifies syncQueue
      ensures Valid() && (s != null <==> IsQueued(old(View()).queue, name))
      ensures s == null ==> View() == old(View()) && Sessions() == old(Sessions())
      ensures s != null ==>
                var q := old(View()).queue;
                var i := IndexOf(q, name);
                && InHand(s) && s in old(Sessions()) && Sessions() == old(Sessions()) - {s} && s.View() == q[i]
                && View() == old(View()).(queue := q[..i] + q[i + 1..])
    {
      hide BackendNames, ActiveView, QueueView, IsQueued, IndexOf, InHand, NoTwice, WellCounted;
      ghost var items := syncQueue.items;
      ghost var q := View().queue;
      WaitsIff(items, name);
      ghost var k;
      s, k := syncQueue.DequeueNamed(name);
      if s != null {
        IndexIs(q, name, k);
        QueueViewCut(items, k);
        CutQueue(items, k);
      }
    }

    method AbortQueued(name: string)
      requires Valid()
      modifies this, storageBooker, syncQueue, Sessions()
      ensures Valid() && Sessions() <= old(Sessions())
      ensures View() == old(Scheduler.AbortQueued(View(), name))
    {
      hide Valid, View, InHand, Scheduler.Cleanup, Backends;
      var session := TakeQueued(name);
      if session != null {
        CleanupSession(session);
      }
    }

    method BookOutside(names: seq<string>, client: string) returns (r: bool)
      requires Valid()
      modifies this`external, storageBooker
      ensures Valid() && Sessions() == old(Sessions())
      ensures View() == old(Scheduler.RequestStorages(View(), names, client))
      ensures r == old(AllAvailable(storageBooker.items, names, client))
    {
      hide Granted, AllAvailable, WellCounted, QueueView, ActiveView, NoTwice, GrantedTo;
      r := storageBooker.ReserveStorages(names, client);
      if r {
        external := external + GrantedTo(names, client);
      }
    }

    method RequestStorages(names: seq<string>, client: string) returns (r: bool)
      requires Valid()
      modifies this, storageBooker
      ensures Valid() && Sessions() == old(Sessions())
      ensures View() == old(Scheduler.RequestStorages(View(), names, client))
      ensures r == old(AllAvailable(storageBooker.items, names, client))
      ensures old(MayTake(Theorems.Request(names, client))) ==> Theorems.Good(View())
    {
      hide Valid, View, Scheduler.RequestStorages, Theorems.Good, Theorems.Allowed;
      StaysGood(View(), Theorems.Request(names, client));
      r := BookOutside(names, client);
    }

    method ReleaseOutside(names: seq<string>)
      requires Valid()
      modifies this`external, storageBooker
      ensures Valid() && Sessions() == old(Sessions())
      ensures View() == old(ReleaseExternal(View(), names))
    {
      hide Released, WellCounted, QueueView, ActiveView, NoTwice;
      storageBooker.ReleaseStorages(names);
      external := external - multiset(names);
    }

    method ReleaseStorages(names: seq<string>)
      requires Valid()
      modifies this, storageBooker
      ensures Valid() && Sessions() == old(Sessions())
      ensures View() == old(ReleaseExternal(View(), names))
      ensures old(MayTake(Theorems.Give(names))) ==> Theorems.Good(View())
    {
      hide Valid, View, ReleaseExternal, Theorems.Good, Theorems.Allowed;
      StaysGood(View(), Theorems.Give(names));
      ReleaseOutside(names);
    }

    method SetBackupState(on: bool)
      requires Valid()
      modifies syncBackup
      ensures Valid() && View() == old(DelayReply(View(), on))
    {
      hide QueueView, ActiveView;
      syncBackup.SetState(on);
    }

    method AbortSessions(order: seq<string>, prompts: map<string, Signal>)
      requires Valid() && QueueHasClients(View().queue) && View().backup.on
      modifies this, storageBooker, syncQueue, syncBackup, Sessions()
      ensures Valid() && Sessions() <= old(Sessions())
      ensures View() == old(AbortAll(View(), order, prompts))
    {
      hide Valid, View, Scheduler.AbortActive, QueueHasClients;
      for i := 0 to |order|
        invariant Valid() && Sessions() <= old(Sessions())
        invariant QueueHasClients(View().queue) && View().backup.on
        invariant AbortAll(View(), order[i..], prompts) == old(AbortAll(View(), order, prompts))
      {
        Looks();
        ghost var before := View();
        var envs := _ => Env(false, false, false, false);
        assert order[i..][0] == order[i] && order[i..][1..] == order[i + 1..];
        if order[i] in activeSessions {
          AbortActive(order[i], PromptOf(prompts, order[i]), envs);
          AbortUnderBackup(before, order[i], PromptOf(prompts, order[i]), envs);
        }
      }
    }

    // `order` is the order in which the map of active sessions is walked.
    method BackupRestoreStarts(order: seq<string>, prompts: map<string, Signal>)
      requires Valid() && QueueHasClients(View().queue)
      requires (set n | n in order) == View().active.Keys
      modifies this, storageBooker, syncQueue, syncBackup, Sessions()
      ensures Valid() && Sessions() <= old(Sessions())
      ensures View() == old(BackupStarts(View(), order, prompts))
      ensures old(MayTake(Theorems.BackupStart(order, prompts))) ==> Theorems.Good(View())
    {
      hide Valid, View, AbortAll, SendReply, DelayReply, Theorems.Good, Theorems.Allowed;
      StaysGood(View(), Theorems.BackupStart(order, prompts));
      SetBackupState(true);
      DelayReplyFrame(old(View()), true);
      Looks();
      LooksEmpty();
      if |activeSessions| == 0 {
        Reply();
      } else {
        AbortSessions(order, prompts);
      }
    }

    method BackupRestoreFinished()
      requires Valid()
      modifies syncBackup
      ensures Valid() && View() == old(BackupFinishes(View()))
      ensures old(MayTake(Theorems.BackupFinish)) ==> Theorems.Good(View())
    {
      hide Valid, View, Theorems.Good, Theorems.Allowed;
      StaysGood(View(), Theorems.BackupFinish);
      SetBackupState(false);
      Reply();
    }
  }
}
