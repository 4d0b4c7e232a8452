/** The session scheduler as a state machine: what each slot of the daemon does to the active
    sessions, the waiting queue, the reservations and the backup flag. The classes in
    Synchronizer.dfy are proved to do exactly this; SchedulerTheorems.dfy and SchedulerResults.dfy
    prove what every run keeps. */
module Scheduler {
  import opened Wrappers
  import opened StorageBooking
  import opened SyncProfiles
  import opened Ledger

  datatype Status = Queued | Started | Error | Done | Aborted | Cancelled | NotPossible

  predicate Final(status: Status) {
    !status.Queued? && !status.Started?
  }

  datatype Emission = Emission(profile: string, status: Status)

  // `holds` is "the session remembers a storage booker", that is, it will release once.
  datatype Session = Session(
    profile: SyncProfile,
    scheduled: bool,
    started: bool,
    aborted: bool,
    finished: bool,
    holds: bool)

  function Backends(s: Session): seq<string> {
    BackendNames(s.profile.storages)
  }

  // The backup service: the flag, whether a reply is still owed, and a tally of the D-Bus requests,
  // the replies sent and the requests whose pending reply was overwritten by a later one.
  datatype Backup = Backup(on: bool, owed: bool, requests: nat, replies: nat, dropped: nat)

  // What the outside world answers while a session is being started.
  datatype Env = Env(lowPower: bool, powerSave: bool, runnerInits: bool, runnerStarts: bool)

  // `created`, `ended`, `trace`, `external` and `surplus` are history: no decision reads them.
  datatype State = State(
    booker: Bookings,
    active: map<string, Session>,
    queue: seq<Session>,
    backup: Backup,
    created: nat,
    ended: multiset<string>,
    trace: seq<Emission>,
    external: multiset<string>,
    surplus: multiset<string>)

  const INITIAL := State(map[], map[], [], Backup(false, false, 0, 0, 0), 0, multiset{}, [], multiset{}, multiset{})

  function Emit(st: State, name: string, status: Status): State {
    st.(trace := st.trace + [Emission(name, status)])
  }

  predicate ClientActive(st: State, client: string) {
    exists n | n in st.active :: st.active[n].profile.client == Some(client)
  }

  lemma SameClients(a: State, b: State)
    requires a.active == b.active
    ensures forall client :: ClientActive(a, client) == ClientActive(b, client)
  {}

  predicate IsQueued(q: seq<Session>, name: string) {
    exists i | 0 <= i < |q| :: q[i].profile.name == name
  }

  // A queued session without a client sub-profile would be dereferenced by the drain.
  predicate QueueHasClients(q: seq<Session>) {
    forall i | 0 <= i < |q| :: q[i].profile.client.Some?
  }

  // -------------------------------------------------------------------------------------------
  // A session by itself
  // -------------------------------------------------------------------------------------------

  function TryStart(s: Session, runnerStarts: bool): Session {
    s.(started := runnerStarts)
  }

  // A manual online sync only opens the network here; its plug-in is started later.
  function Begin(s: Session, env: Env): (Session, bool) {
    if s.profile.online && !s.scheduled then (s, true) else (TryStart(s, env.runnerStarts), env.runnerStarts)
  }

  // What a plug-in runner or the network reports to its session.
  datatype Signal =
    | Success(acquired: set<string>)
    | Failure(unsupported: bool)
    | Terminated
    | NetworkOpened(runnerStarts: bool)
    | NetworkFailed

  // The session's own slots: the new session, and the final status it announces, if any.
  function React(s: Session, signal: Signal): (Session, Option<Status>) {
    match signal
    case Success(_) => (s.(finished := true), Some(if s.aborted then Aborted else Done))
    case Failure(unsupported) => (s.(finished := true), Some(if unsupported then NotPossible else Error))
    case Terminated => (s, if s.finished then None else Some(Error))
    case NetworkOpened(ok) => (TryStart(s, ok), if ok then None else Some(Error))
    case NetworkFailed => (s, Some(Error))
  }

  function AcquiredBy(signal: Signal): set<string> {
    if signal.Success? then signal.acquired else {}
  }

  // -------------------------------------------------------------------------------------------
  // Building blocks. The session `s` is in hand: in neither the active map nor the queue.
  // -------------------------------------------------------------------------------------------

  function ReserveFor(st: State, s: Session): (State, Session, bool) {
    var names := Backends(s);
    if !AllAvailable(st.booker, names, s.profile.name) then (st, s, false)
    else
      (st.(booker := Granted(st.booker, names, s.profile.name),
           surplus := if s.holds then st.surplus + multiset(names) else st.surplus),
       s.(holds := true),
       true)
  }

  // The back-end list is recomputed from the profile when the session lets go.
  function Cleanup(st: State, s: Session, names: seq<string>): State {
    st.(booker := if s.holds then Released(st.booker, names) else st.booker,
        ended := st.ended + multiset{s.profile.name})
  }

  function Enqueue(st: State, s: Session): State {
    st.(queue := st.queue + [s])
  }

  function StartSyncNow(st: State, s: Session, env: Env): (State, Session, bool) {
    if st.backup.on || s.profile.client.None? then (st, s, false)
    else
      var s1 := s.(started := true);
      if !env.runnerInits then (st, s1, false)
      else
        var (s2, ok) := Begin(s1, env);
        if ok then (st.(active := st.active[s.profile.name := s2]), s2, true) else (st, s2, false)
  }

  // What the building blocks leave as it is.
  lemma ReserveFrame(st: State, s: Session)
    ensures var (st1, s1, _) := ReserveFor(st, s);
            st1 == st.(booker := st1.booker, surplus := st1.surplus) && s1.profile == s.profile
  {
    hide BackendNames, AllAvailable, Granted;
  }

  lemma StartNowFrame(st: State, s: Session, env: Env)
    ensures var (st1, s1, ok) := StartSyncNow(st, s, env);
            && s1.profile == s.profile && s1.holds == s.holds
            && st1 == if ok then st.(active := st.active[s.profile.name := s1]) else st
  {}

  lemma CleanupFrame(st: State, s: Session)
    ensures var st1 := Cleanup(st, s, Backends(s));
            st1 == st.(booker := st1.booker, ended := st.ended + multiset{s.profile.name})
  {
    hide BackendNames, Released;
  }

  function SendReply(st: State): State {
    if st.backup.owed
    then st.(backup := st.backup.(owed := false, replies := st.backup.replies + 1))
    else st
  }

  // A pending reply that is overwritten is lost.
  function DelayReply(st: State, on: bool): State {
    var b := st.backup;
    st.(backup := Backup(on, true, b.requests + 1, b.replies, b.dropped + if b.owed then 1 else 0))
  }

  // -------------------------------------------------------------------------------------------
  // The slots
  // -------------------------------------------------------------------------------------------

  function StartFresh(st: State, name: string, s: Session, env: Env): (State, bool) {
    if s.profile.client.Some? && ClientActive(st, s.profile.client.value) then
      (Emit(Enqueue(st, s), name, Queued), false)
    else if !s.profile.valid || (s.scheduled && (env.lowPower || env.powerSave)) then
      (Cleanup(Emit(st, name, Error), s, Backends(s)), false)
    else
      var (st1, s1, reserved) := ReserveFor(st, s);
      if !reserved then (Emit(Enqueue(st1, s1), name, Queued), true)
      else
        var (st2, s2, ok) := StartSyncNow(st1, s1, env);
        if ok then (Emit(st2, name, Started), true)
        else (Cleanup(Emit(st2, name, Error), s2, Backends(s2)), false)
  }

  function StartSync(st: State, name: string, scheduled: bool, found: Option<SyncProfile>, env: Env): (State, bool) {
    if st.backup.on then (Emit(st, name, NotPossible), false)
    else if name in st.active then (st, true)
    else if IsQueued(st.queue, name) then (Emit(st, name, Queued), true)
    else if found.None? || !found.value.enabled then (Emit(st, name, Error), false)
    else StartFresh(st.(created := st.created + 1), name,
                    Session(found.value, scheduled, false, false, false, false), env)
  }

  // One attempt to start the head of the queue; the answer is "try the next one". Storages are
  // booked before the client is looked at, and a deferred head keeps them.
  function StartNextSync(st: State, envs: string -> Env): (r: (State, bool))
    requires QueueHasClients(st.queue)
    ensures r.1 ==> |r.0.queue| < |st.queue|
    ensures r.1 ==> r.0.queue == st.queue[1..]
  {
    if st.queue == [] || st.backup.on then (st, false)
    else
      var s := st.queue[0];
      var name := s.profile.name;
      var env := envs(name);
      var rest := st.(queue := st.queue[1..]);
      if s.scheduled && env.lowPower then
        (Emit(Cleanup(rest, s, Backends(s)), name, Error), true)
      else
        var (st1, s1, reserved) := ReserveFor(rest, s);
        if !reserved then (st, false)
        else if ClientActive(st1, s.profile.client.value) then (st1.(queue := [s1] + st1.queue), false)
        else
          var (st2, s2, ok) := StartSyncNow(st1, s1, env);
          if ok then (Emit(st2, name, Started), true)
          else (Emit(Cleanup(st2, s2, Backends(s2)), name, Error), true)
  }

  function Drain(st: State, envs: string -> Env): State
    requires QueueHasClients(st.queue)
    decreases |st.queue|
  {
    var (st1, again) := StartNextSync(st, envs);
    if again then Drain(st1, envs) else st1
  }

  // The part of the finish slot that deals with the session itself.
  function Retire(st: State, name: string, status: Status, acquired: set<string>): State {
    if name !in st.active then st
    else
      var s := st.active[name];
      var ss := if status.Done? then EnableStorages(s.profile.storages, acquired) else s.profile.storages;
      var st1 := Cleanup(st.(active := st.active - {name}), s, BackendNames(ss));
      if s.aborted && |st1.active| == 0 && st1.backup.on then SendReply(st1) else st1
  }

  lemma RetireFrame(st: State, name: string, status: Status, acquired: set<string>)
    ensures var st1 := Retire(st, name, status, acquired); st1.queue == st.queue && st1.surplus == st.surplus
  {
    hide BackendNames, EnableStorages, Released;
  }

  function OnSessionFinished(st: State, name: string, status: Status, acquired: set<string>, envs: string -> Env): State
    requires QueueHasClients(st.queue)
  {
    Drain(Emit(Retire(st, name, status, acquired), name, status), envs)
  }

  function Deliver(st: State, name: string, signal: Signal, envs: string -> Env): State
    requires QueueHasClients(st.queue)
    requires name in st.active
  {
    var (s, announced) := React(st.active[name], signal);
    var st1 := st.(active := st.active[name := s]);
    match announced
    case None => st1
    case Some(status) => OnSessionFinished(st1, name, status, AcquiredBy(signal), envs)
  }

  // `prompt` is what the plug-in reports from within the abort call, if anything.
  function AbortActive(st: State, name: string, prompt: Option<Signal>, envs: string -> Env): State
    requires QueueHasClients(st.queue)
    requires name in st.active
  {
    var s := st.active[name];
    if !s.started then OnSessionFinished(st, name, Error, {}, envs)
    else
      var st1 := st.(active := st.active[name := s.(aborted := true)]);
      match prompt
      case None => st1
      case Some(signal) => Deliver(st1, name, signal, envs)
  }

  function IndexOf(q: seq<Session>, name: string): (i: nat)
    requires IsQueued(q, name)
    ensures i < |q| && q[i].profile.name == name
    ensures forall j | 0 <= j < i :: q[j].profile.name != name
  {
    if q[0].profile.name == name then 0 else
      assert exists i :: 0 <= i < |q[1..]| && q[1..][i].profile.name == name by {
        var k :| 0 <= k < |q| && q[k].profile.name == name;
        assert q[1..][k - 1] == q[k];
      }
      1 + IndexOf(q[1..], name)
  }

  function AbortQueued(st: State, name: string): State {
    if !IsQueued(st.queue, name) then st
    else
      var i := IndexOf(st.queue, name);
      Cleanup(st.(queue := st.queue[..i] + st.queue[i + 1..]), st.queue[i], Backends(st.queue[i]))
  }

  function AbortSync(st: State, name: string, prompt: Option<Signal>, envs: string -> Env): State
    requires QueueHasClients(st.queue)
  {
    if name in st.active then AbortActive(st, name, prompt, envs)
    else Emit(AbortQueued(st, name), name, Cancelled)
  }

  function RequestStorages(st: State, names: seq<string>, client: string): State {
    if !AllAvailable(st.booker, names, client) then st
    else st.(booker := Granted(st.booker, names, client), external := st.external + GrantedTo(names, client))
  }

  function ReleaseExternal(st: State, names: seq<string>): State {
    st.(booker := Released(st.booker, names), external := st.external - multiset(names))
  }

  function PromptOf(prompts: map<string, Signal>, name: string): Option<Signal> {
    if name in prompts then Some(prompts[name]) else None
  }

  // During a backup a session ends without the queue being looked at.
  lemma FinishUnderBackup(st: State, name: string, status: Status, acquired: set<string>, envs: string -> Env)
    requires QueueHasClients(st.queue) && st.backup.on
    ensures var st1 := OnSessionFinished(st, name, status, acquired, envs);
            st1.surplus == st.surplus && st1.queue == st.queue && st1.backup.on
  {
    hide QueueHasClients, BackendNames, EnableStorages, Released;
  }

  lemma AbortUnderBackup(st: State, name: string, prompt: Option<Signal>, envs: string -> Env)
    requires QueueHasClients(st.queue) && st.backup.on && name in st.active
    ensures var st1 := AbortActive(st, name, prompt, envs);
            st1.surplus == st.surplus && st1.queue == st.queue && st1.backup.on
  {
    hide QueueHasClients, OnSessionFinished;
    var s := st.active[name];
    FinishUnderBackup(st, name, Error, {}, envs);
    if s.started && prompt.Some? {
      var (s1, announced) := React(s.(aborted := true), prompt.value);
      var marked := st.(active := st.active[name := s.(aborted := true)]);
      if announced.Some? {
        FinishUnderBackup(marked.(active := marked.active[name := s1]), name, announced.value,
                          AcquiredBy(prompt.value), envs);
      }
    }
  }

  function AbortAll(st: State, order: seq<string>, prompts: map<string, Signal>): State
    requires QueueHasClients(st.queue)
    requires st.backup.on
    ensures AbortAll(st, order, prompts).queue == st.queue
    ensures AbortAll(st, order, prompts).backup.on
    decreases |order|
  {
    if order == [] then st
    else if order[0] !in st.active then AbortAll(st, order[1..], prompts)
    else
      var (prompt, envs) := (PromptOf(prompts, order[0]), _ => Env(false, false, false, false));
      AbortUnderBackup(st, order[0], prompt, envs);
      AbortAll(AbortActive(st, order[0], prompt, envs), order[1..], prompts)
  }

  function BackupStarts(st: State, order: seq<string>, prompts: map<string, Signal>): State
    requires QueueHasClients(st.queue)
  {
    var st1 := DelayReply(st, true);
    if |st1.active| == 0 then SendReply(st1) else AbortAll(st1, order, prompts)
  }

  function BackupFinishes(st: State): State {
    SendReply(DelayReply(st, false))
  }
}
