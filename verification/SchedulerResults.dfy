/** The headline results: exclusion, conservation, the drain, the backup handshake, and how the
    reservations balance when everything has ended. */
module SchedulerResults {
  import opened StorageBooking
  import opened SyncProfiles
  import opened Ledger
  import opened Scheduler
  import opened SchedulerInvariant
  import opened SchedulerRuns
  import opened SchedulerTheorems
  import opened SchedulerEndings

  ghost predicate Reachable(st: State) {
    exists es :: Reaches(INITIAL, es, st)
  }

  lemma ReachableIsGood(st: State)
    requires Reachable(st)
    ensures Good(st)
  {
    hide Good;
    var es :| Reaches(INITIAL, es, st);
    InitiallyGood();
    RunsStayGood(INITIAL, es, st);
  }

  // -------------------------------------------------------------------------------------------
  // Exclusion
  // -------------------------------------------------------------------------------------------

  lemma ActiveIsHeld(st: State, a: string)
    requires Sound(st) && a in st.active
    ensures var held := Held(Live(st.active, st.queue)); a in held && held[a] == multiset(Backends(st.active[a]))
  {
    hide Balanced, BackendNames;
    QueueShapeApart(st.queue, st.active);
    assert ActiveOk(a, st.active[a]);
    assert Live(st.active, st.queue)[a] == st.active[a];
  }

  // On the lists the sessions book.
  lemma BackendListsExclude(st: State, a: string, b: string, s: string)
    requires Reachable(st) && a in st.active && b in st.active
    ensures s in Backends(st.active[a]) ==>
              && s in st.booker && st.booker[s].client == a
              && st.booker[s].count >= multiset(Backends(st.active[a]))[s]
    ensures a != b ==> !(s in Backends(st.active[a]) && s in Backends(st.active[b]))
    ensures a != b ==> st.active[a].profile.client != st.active[b].profile.client
  {
    ReachableIsGood(st);
    ActiveIsHeld(st, a);
    ActiveIsHeld(st, b);
    hide BackendNames, QueueShape, ByName, Live, Held, Balanced, Reachable, Handshake;
    var held := Held(Live(st.active, st.queue));
    if s in Backends(st.active[a]) {
      assert s in multiset(Backends(st.active[a]));
      BalancedCovers(st.booker, held, st.external, st.surplus, a, s);
    }
    if s in Backends(st.active[b]) {
      assert s in multiset(Backends(st.active[b]));
      BalancedCovers(st.booker, held, st.external, st.surplus, b, s);
    }
  }

  // Two active sessions share neither the back-end of an enabled storage nor a client plug-in, and
  // the back-end of each enabled storage is booked in its session's own name.
  lemma ActiveSessionsExclude(st: State, a: string, b: string, i: nat, j: nat)
    requires Reachable(st) && a in st.active && b in st.active
    ensures a != b ==> st.active[a].profile.client != st.active[b].profile.client
    ensures var (x, y) := (st.active[a].profile.storages, st.active[b].profile.storages);
            IsFirst(x, i) && x[i].enabled ==>
              && x[i].backend in st.booker && st.booker[x[i].backend].client == a
              && (a != b && IsFirst(y, j) && y[j].enabled ==> x[i].backend != y[j].backend)
  {
    hide BackendNames, Reachable;
    var x, y := st.active[a].profile.storages, st.active[b].profile.storages;
    BackendListsExclude(st, a, b, "");
    if IsFirst(x, i) && x[i].enabled {
      UsedBackends(x, x[i].backend);
      UsedBackends(y, x[i].backend);
      BackendListsExclude(st, a, b, x[i].backend);
    }
  }

  // -------------------------------------------------------------------------------------------
  // Conservation
  // -------------------------------------------------------------------------------------------

  lemma {:induction false} DistinctInQueue(q: seq<Session>, active: map<string, Session>, i: nat, j: nat)
    requires QueueShape(q, active) && i < j < |q|
    ensures q[i].profile.name != q[j].profile.name && q[i].profile.name !in active
  {
    if i == 0 {
      ByNameIsQueued(q[1..], q[0].profile.name);
      assert q[1..][j - 1] == q[j];
    } else {
      DistinctInQueue(q[1..], active, i - 1, j - 1);
    }
  }

  // No session is lost or invented, none is both running and waiting or waits twice, and the final
  // statuses of the run are one for each ended session, and the answers that met no session.
  lemma SessionsAreConserved(es: seq<Event>, st: State)
    requires Reaches(INITIAL, es, st)
    ensures st.created == |st.active| + |st.queue| + |st.ended|
    ensures Finals(st.trace) == st.ended + Strays(INITIAL, es)
    ensures forall n | n in st.active :: !IsQueued(st.queue, n)
    ensures forall i, j | 0 <= i < j < |st.queue| :: st.queue[i].profile.name != st.queue[j].profile.name
  {
    InitiallyGood();
    RunAccounts(INITIAL, es, st);
    assert st.trace[0..] == st.trace && st.ended - multiset{} == st.ended;
    RunsStayGood(INITIAL, es, st);
    hide Balanced, Live, Finals, Strays, Reaches;
    QueueShapeApart(st.queue, st.active);
    forall n | n in st.active ensures !IsQueued(st.queue, n) {
      ByNameIsQueued(st.queue, n);
    }
    forall i, j | 0 <= i < j < |st.queue| ensures st.queue[i].profile.name != st.queue[j].profile.name {
      DistinctInQueue(st.queue, st.active, i, j);
    }
  }

  // -------------------------------------------------------------------------------------------
  // The drain
  // -------------------------------------------------------------------------------------------

  ghost predicate Stuck(st: State) {
    || st.queue == []
    || st.backup.on
    || !AllAvailable(st.booker, Backends(st.queue[0]), st.queue[0].profile.name)
    || (st.queue[0].profile.client.Some? && ClientActive(st, st.queue[0].profile.client.value))
  }

  // A session that left the queue runs, or ended with an error that was announced.
  ghost predicate Settled(before: State, after: State, s: Session) {
    var n := s.profile.name;
    || (n in after.active && after.active[n].profile == s.profile)
    || (after.ended[n] > before.ended[n]
        && |before.trace| <= |after.trace| && Emission(n, Error) in after.trace[|before.trace|..])
  }

  // Later steps take nothing back.
  ghost predicate Extends(st: State, st1: State) {
    && (forall n | n in st.active :: n in st1.active && st1.active[n] == st.active[n])
    && st.ended <= st1.ended
    && st.trace <= st1.trace
  }

  lemma EndedIsSettled(st: State, mid: State, s: Session, name: string)
    requires name == s.profile.name
    requires mid.active == st.active && mid.ended == st.ended && mid.trace == st.trace
    ensures var st1 := Emit(Cleanup(mid, s, Backends(s)), name, Error);
            Extends(st, st1) && Settled(st, st1, s) && st1.queue == mid.queue && st1.active == st.active
  {
    hide Backends, Released;
    var st1 := Emit(Cleanup(mid, s, Backends(s)), name, Error);
    assert st1.trace[|st.trace|..] == [Emission(name, Error)];
  }

  lemma StartedIsSettled(st: State, mid: State, s: Session, t: Session)
    requires t.profile == s.profile && s.profile.name !in st.active
    requires mid.active == st.active && mid.ended == st.ended && mid.trace == st.trace
    ensures var n := s.profile.name;
            var st1 := Emit(mid.(active := mid.active[n := t]), n, Started);
            Extends(st, st1) && Settled(st, st1, s)
  {}

  lemma EmitFrame(st: State, name: string, status: Status)
    ensures Emit(st, name, status).active == st.active && Emit(st, name, status).queue == st.queue
  {}

  lemma SettledByProfile(before: State, after: State, s: Session, t: Session)
    requires s.profile == t.profile
    ensures Settled(before, after, t) ==> Settled(before, after, s)
  {}

  // The head was booked for and its client is free: it runs or ends.
  lemma TriedIsSettled(st: State, mid: State, s: Session, t: Session, env: Env)
    requires t.profile == s.profile && s.profile.name !in st.active
    requires mid.active == st.active && mid.ended == st.ended && mid.trace == st.trace
    ensures var n := s.profile.name;
            var (st2, t2, ok) := StartSyncNow(mid, t, env);
            var st1 := if ok then Emit(st2, n, Started) else Emit(Cleanup(st2, t2, Backends(t2)), n, Error);
            && Extends(st, st1) && Settled(st, st1, s) && st1.queue == mid.queue
            && forall a | a in st1.active :: a in st.active || a == n
  {
    hide Cleanup, BackendNames, Settled, Extends, Emit;
    var n := s.profile.name;
    var (st2, t2, ok) := StartSyncNow(mid, t, env);
    if ok {
      StartedIsSettled(st, mid, s, t2);
      EmitFrame(st2, n, Started);
    } else {
      EndedIsSettled(st, st2, t2, n);
      SettledByProfile(st, Emit(Cleanup(st2, t2, Backends(t2)), n, Error), s, t2);
    }
  }

  lemma HeadIsSettled(st: State, envs: string -> Env)
    requires QueueHasClients(st.queue)
    requires st.queue != [] ==> st.queue[0].profile.name !in st.active
    ensures var (st1, again) := StartNextSync(st, envs);
            && Extends(st, st1)
            && (again ==> st.queue != [] && st1.queue == st.queue[1..] && Settled(st, st1, st.queue[0]))
            && (again ==> forall n | n in st1.active :: n in st.active || n == st.queue[0].profile.name)
            && (!again ==> Stuck(st1))
            && (!again ==> st1.queue == st.queue || st1.queue == [st.queue[0].(holds := true)] + st.queue[1..])
            && (!again ==> |st1.queue| == |st.queue|)
  {
    hide Granted, Cleanup, BackendNames, Settled, Emit, AllAvailable, StartSyncNow;
    if st.queue != [] && !st.backup.on {
      var s := st.queue[0];
      var rest := st.(queue := st.queue[1..]);
      EndedIsSettled(st, rest, s, s.profile.name);
      var (st1, s1, _) := ReserveFor(rest, s);
      TriedIsSettled(st, st1, s, s1, envs(s.profile.name));
      SameClients(st1, st1.(queue := [s1] + st1.queue));
    }
  }

  lemma SettledStays(before: State, mid: State, after: State, s: Session)
    requires Extends(before, mid) && Extends(mid, after)
    ensures Settled(before, mid, s) ==> Settled(before, after, s)
    ensures Settled(mid, after, s) ==> Settled(before, after, s)
    ensures Extends(before, after)
  {
    var n := s.profile.name;
    var e := Emission(n, Error);
    var k := |before.trace|;
    assert forall i | 0 <= i < |mid.trace| :: mid.trace[i] == after.trace[i];
    if e in mid.trace[k..] {
      var i :| 0 <= i < |mid.trace[k..]| && mid.trace[k..][i] == e;
      assert after.trace[k..][i] == e;
    }
    if e in after.trace[|mid.trace|..] {
      var i :| 0 <= i < |after.trace[|mid.trace|..]| && after.trace[|mid.trace|..][i] == e;
      assert after.trace[k..][i + |mid.trace| - k] == e;
    }
  }

  // What the drain leaves is a suffix of the queue; its head may have been booked for meanwhile.
  ghost predicate IsSuffix(q: seq<Session>, left: seq<Session>) {
    var taken := |q| - |left|;
    && 0 <= taken
    && (|| left == q[taken..]
        || (taken < |q| && left == [q[taken].(holds := true)] + q[taken + 1..]))
  }

  ghost predicate AllSettled(before: State, after: State, taken: seq<Session>) {
    forall s | s in taken :: Settled(before, after, s)
  }

  lemma SuffixOfTail(q: seq<Session>, left: seq<Session>)
    requires q != [] && IsSuffix(q[1..], left)
    ensures IsSuffix(q, left)
  {
    var taken := |q| - |left|;
    assert q[1..][taken - 1..] == q[taken..];
    if taken < |q| {
      assert q[1..][taken - 1] == q[taken] && q[1..][taken..] == q[taken + 1..];
    }
  }

  lemma OneMoreSettled(st: State, mid: State, after: State, taken: seq<Session>)
    requires taken != [] && Settled(st, mid, taken[0]) && AllSettled(mid, after, taken[1..])
    requires Extends(st, mid) && Extends(mid, after)
    ensures AllSettled(st, after, taken) && Extends(st, after)
  {
    hide Settled, Extends;
    SettledStays(st, mid, after, taken[0]);
    forall s | s in taken ensures Settled(st, after, s) {
      if s != taken[0] {
        assert taken == [taken[0]] + taken[1..];
        assert s in taken[1..];
        SettledStays(st, mid, after, s);
      }
    }
  }

  lemma NothingTaken(st: State, st1: State)
    requires |st1.queue| == |st.queue|
    requires st1.queue == st.queue || (st.queue != [] && st1.queue == [st.queue[0].(holds := true)] + st.queue[1..])
    ensures IsSuffix(st.queue, st1.queue) && AllSettled(st, st1, st.queue[..0])
  {
    hide Settled;
  }

  lemma {:induction false} QueueShapeOther(q: seq<Session>, active: map<string, Session>,
                                           other: map<string, Session>, name: string)
    requires QueueShape(q, active) && name !in ByName(q)
    requires forall n | n in other :: n in active || n == name
    ensures QueueShape(q, other)
  {
    if q != [] { QueueShapeOther(q[1..], active, other, name); }
  }

  lemma QueueShapeAfterHead(st: State, st1: State)
    requires QueueShape(st.queue, st.active) && st.queue != [] && st1.queue == st.queue[1..]
    requires forall n | n in st1.active :: n in st.active || n == st.queue[0].profile.name
    ensures QueueShape(st1.queue, st1.active)
  {
    QueueShapeOther(st.queue[1..], st.active, st1.active, st.queue[0].profile.name);
  }

  lemma DrainStep(st: State, envs: string -> Env)
    requires QueueHasClients(st.queue)
    requires QueueShape(st.queue, st.active)
    ensures var (st1, again) := StartNextSync(st, envs);
            && Extends(st, st1)
            && (again ==> st.queue != [] && st1.queue == st.queue[1..] && Settled(st, st1, st.queue[0]))
            && (again ==> QueueShape(st1.queue, st1.active) && QueueHasClients(st1.queue))
            && (!again ==> Stuck(st1) && IsSuffix(st.queue, st1.queue))
            && (!again ==> |st1.queue| == |st.queue| && AllSettled(st, st1, st.queue[..0]))
  {
    assert st.queue != [] ==> st.queue[0].profile.name !in st.active;
    HeadIsSettled(st, envs);
    hide StartNextSync, Settled, Extends, Stuck, QueueShape;
    var (st1, again) := StartNextSync(st, envs);
    if again {
      QueueShapeAfterHead(st, st1);
      QueueShapeApart(st1.queue, st1.active);
    } else {
      NothingTaken(st, st1);
    }
  }

  lemma TakenPrefix(q: seq<Session>, left: seq<Session>)
    requires q != [] && IsSuffix(q[1..], left)
    ensures var taken := q[..|q| - |left|];
            taken != [] && taken[0] == q[0] && taken[1..] == q[1..][..|q| - 1 - |left|]
  {}

  // The drain takes a prefix off the queue, first come first served, settles each session it takes,
  // and stops only for one of four reasons.
  lemma {:induction false} DrainServesInOrder(st: State, envs: string -> Env)
    requires QueueHasClients(st.queue)
    requires QueueShape(st.queue, st.active)
    ensures var st1 := Drain(st, envs);
            && IsSuffix(st.queue, st1.queue)
            && AllSettled(st, st1, st.queue[..|st.queue| - |st1.queue|])
            && Stuck(st1) && Extends(st, st1)
    decreases |st.queue|
  {
    hide StartNextSync, Settled, Extends, Stuck, QueueShape, QueueHasClients, AllSettled, IsSuffix;
    DrainStep(st, envs);
    var (st1, again) := StartNextSync(st, envs);
    if again {
      DrainServesInOrder(st1, envs);
      var st2 := Drain(st1, envs);
      SuffixOfTail(st.queue, st2.queue);
      TakenPrefix(st.queue, st2.queue);
      OneMoreSettled(st, st1, st2, st.queue[..|st.queue| - |st2.queue|]);
    }
  }

  // -------------------------------------------------------------------------------------------
  // Backup
  // -------------------------------------------------------------------------------------------

  // The backup framework waits for the reply: no further request meanwhile.
  ghost predicate NoBackupRequest(es: seq<Event>) {
    forall e | e in es :: !e.BackupStart? && !e.BackupFinish?
  }

  lemma {:induction false} RunUnderBackup(st: State, es: seq<Event>, st1: State)
    requires Good(st) && st.backup.on && Reaches(st, es, st1) && NoBackupRequest(es)
    ensures Good(st1) && SameRequests(st, st1) && st1.active.Keys <= st.active.Keys
    decreases |es|
  {
    hide Good, Step, Allowed;
    if es != [] {
      StepKeepsGood(st, es[0]);
      StepKeepsHandshake(st, es[0]);
      RunUnderBackup(Step(st, es[0]), es[1..], st1);
    }
  }

  lemma BackupStartTally(st: State, order: seq<string>, prompts: map<string, Signal>)
    requires Good(st) && QueueHasClients(st.queue) && !st.backup.on
    requires (set n | n in order) == st.active.Keys && PromptsReleaseWhatWasReserved(st, prompts)
    ensures var b := BackupStarts(st, order, prompts).backup;
            b.on && b.requests == st.backup.requests + 1 && b.dropped == st.backup.dropped
  {
    hide Sound, AbortAll;
    var st1 := DelayReply(st, true);
    SoundIgnoresBackup(st, st1);
    if |st1.active| != 0 {
      assert HandshakeBut(st1, set n | n in order);
      assert PromptsReleaseWhatWasReserved(st1, prompts);
      AbortAllKeeps(st1, order, prompts);
    }
  }

  lemma BackupBegins(st: State, order: seq<string>, prompts: map<string, Signal>)
    requires Good(st) && QueueHasClients(st.queue) && !st.backup.on && Allowed(st, BackupStart(order, prompts))
    ensures var st1 := Step(st, BackupStart(order, prompts));
            && Good(st1) && st1.backup.on && st1.active.Keys <= st.active.Keys
            && st1.backup.requests == st.backup.requests + 1 && st1.backup.dropped == st.backup.dropped
  {
    hide Good, QueueHasClients, BackupStarts;
    BackupStartsKeeps(st, order, prompts);
    BackupStartTally(st, order, prompts);
  }

  // From the start request on, whatever happens short of the next request, no session becomes
  // active, and exactly one reply has been sent as soon as, and not before, the last one is gone.
  lemma BackupStartIsAnsweredOnce(st: State, order: seq<string>, prompts: map<string, Signal>, es: seq<Event>,
                                  st1: State)
    requires Reachable(st) && !st.backup.on && Allowed(st, BackupStart(order, prompts))
    requires QueueHasClients(st.queue)
    requires Reaches(Step(st, BackupStart(order, prompts)), es, st1) && NoBackupRequest(es)
    ensures st1.backup.on && st1.active.Keys <= st.active.Keys
    ensures st1.backup.replies == st.backup.replies + if |st1.active| == 0 then 1 else 0
    ensures st1.backup.dropped == st.backup.dropped
  {
    ReachableIsGood(st);
    hide Sound, Reaches, Reachable, QueueHasClients, Allowed, Step;
    BackupBegins(st, order, prompts);
    RunUnderBackup(Step(st, BackupStart(order, prompts)), es, st1);
  }

  // -------------------------------------------------------------------------------------------
  // What is left booked when everything has ended
  // -------------------------------------------------------------------------------------------

  ghost predicate Quiet(st: State) {
    st.active == map[] && st.queue == [] && st.external == multiset{}
  }

  // With no session left and nothing booked by others, exactly the second bookings remain, and
  // nothing will ever give them back.
  lemma QuietBooksAreSurplus(st: State)
    requires Reachable(st) && Quiet(st)
    ensures forall s :: Count(st.booker, s) == st.surplus[s]
    ensures st.booker == map[] <==> st.surplus == multiset{}
  {
    ReachableIsGood(st);
    assert Live(st.active, st.queue) == map[];
    assert Held(map[]) == map[];
    hide Balanced;
    LeftoverIsSurplus(st.booker, map[], st.external, st.surplus);
  }

  lemma SurplusUntouched(st: State, s: Session, env: Env)
    ensures StartSyncNow(st, s, env).0.surplus == st.surplus
    ensures Cleanup(st, s, Backends(s)).surplus == st.surplus
  {}

  lemma HeadCanBookAgain(st: State)
    requires Sound(st) && st.queue != [] && st.queue[0].holds
    ensures AllAvailable(st.booker, Backends(st.queue[0]), st.queue[0].profile.name)
  {
    hide Balanced, BackendNames, ActiveShape, AllAvailable;
    var s := st.queue[0];
    var live := Live(st.active, st.queue);
    assert live[s.profile.name] == s;
    HeldAt(live, s.profile.name);
    SecondGrantIsSurplus(st.booker, Held(live), st.external, st.surplus, Backends(s), s.profile.name);
  }

  // A second booking happens in one place only: the head of the queue was booked for by an earlier
  // attempt that deferred it, and is tried again.
  lemma SecondBookingOnlyOfDeferredHead(st: State, envs: string -> Env)
    requires Sound(st) && QueueHasClients(st.queue)
    ensures StartNextSync(st, envs).0.surplus == st.surplus +
              if st.queue != [] && !st.backup.on && st.queue[0].holds
                 && !(st.queue[0].scheduled && envs(st.queue[0].profile.name).lowPower)
              then multiset(Backends(st.queue[0])) else multiset{}
  {
    hide Sound, Backends, Granted, Cleanup, StartSyncNow, AllAvailable, ClientActive;
    if st.queue != [] {
      var s := st.queue[0];
      if s.holds {
        HeadCanBookAgain(st);
      }
      var env := envs(s.profile.name);
      var rest := st.(queue := st.queue[1..]);
      SurplusUntouched(rest, s, env);
      var (st1, s1, _) := ReserveFor(rest, s);
      SurplusUntouched(st1, s1, env);
      var (st2, s2, _) := StartSyncNow(st1, s1, env);
      SurplusUntouched(st2, s2, env);
    }
  }
}
