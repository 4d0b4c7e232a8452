/** The invariant of the scheduler and the proof that each building block keeps it. */
module SchedulerInvariant {
  import opened Wrappers
  import opened StorageBooking
  import opened SyncProfiles
  import opened Ledger
  import opened Scheduler

  ghost predicate ActiveOk(n: string, s: Session) {
    n != "" && s.profile.name == n && s.profile.client.Some? && s.started && s.holds
  }

  ghost predicate DistinctClients(active: map<string, Session>) {
    forall a, b | a in active && b in active && a != b :: active[a].profile.client != active[b].profile.client
  }

  ghost predicate ActiveShape(active: map<string, Session>) {
    (forall n | n in active :: ActiveOk(n, active[n])) && DistinctClients(active)
  }

  // The queue as a map by profile name.
  ghost function ByName(q: seq<Session>): map<string, Session> {
    if q == [] then map[] else ByName(q[1..])[q[0].profile.name := q[0]]
  }

  // Named sessions with a client, no name twice, no name that is also active.
  ghost predicate QueueShape(q: seq<Session>, active: map<string, Session>) {
    q != [] ==>
      && q[0].profile.name != "" && q[0].profile.client.Some?
      && q[0].profile.name !in active && q[0].profile.name !in ByName(q[1..])
      && QueueShape(q[1..], active)
  }

  ghost function Live(active: map<string, Session>, q: seq<Session>): map<string, Session> {
    active + ByName(q)
  }

  ghost function Held(live: map<string, Session>): Holdings {
    map n | n in live && live[n].holds :: multiset(Backends(live[n]))
  }

  ghost predicate Books(st: State, live: map<string, Session>) {
    Balanced(st.booker, Held(live), st.external, st.surplus)
  }

  ghost predicate Counted(st: State) {
    st.created == |st.active| + |st.queue| + |st.ended|
  }

  ghost predicate Sound(st: State) {
    && ActiveShape(st.active)
    && QueueShape(st.queue, st.active)
    && Books(st, Live(st.active, st.queue))
    && Counted(st)
  }

  // -------------------------------------------------------------------------------------------
  // The queue as a map
  // -------------------------------------------------------------------------------------------

  lemma {:induction false} ByNameIsQueued(q: seq<Session>, n: string)
    ensures n in ByName(q) <==> IsQueued(q, n)
  {
    if q != [] {
      ByNameIsQueued(q[1..], n);
      if IsQueued(q[1..], n) {
        var i :| 0 <= i < |q[1..]| && q[1..][i].profile.name == n;
        assert q[i + 1].profile.name == n;
      }
      if IsQueued(q, n) && n != q[0].profile.name {
        var i :| 0 <= i < |q| && q[i].profile.name == n;
        assert q[1..][i - 1].profile.name == n;
      }
    }
  }

  lemma ByNameFront(s: Session, q: seq<Session>)
    ensures ByName([s] + q) == ByName(q)[s.profile.name := s]
  {
    assert ([s] + q)[1..] == q;
  }

  lemma QueueShapeFront(s: Session, q: seq<Session>, active: map<string, Session>)
    ensures QueueShape([s] + q, active) <==>
            && s.profile.name != "" && s.profile.client.Some?
            && s.profile.name !in active && s.profile.name !in ByName(q)
            && QueueShape(q, active)
  {
    assert ([s] + q)[1..] == q;
  }

  lemma {:induction false} QueueBack(q: seq<Session>, s: Session, active: map<string, Session>)
    requires QueueShape([s] + q, active)
    ensures QueueShape(q + [s], active)
    ensures ByName(q + [s]) == ByName(q)[s.profile.name := s]
  {
    QueueShapeFront(s, q, active);
    if q == [] {
      assert q + [s] == [s] + q;
      ByNameFront(s, q);
    } else {
      assert (q + [s])[1..] == q[1..] + [s];
      QueueShapeFront(s, q[1..], active);
      QueueBack(q[1..], s, active);
    }
  }

  lemma {:induction false} QueueShapeSmaller(q: seq<Session>, active: map<string, Session>, name: string)
    requires QueueShape(q, active)
    ensures QueueShape(q, active - {name})
  {
    if q != [] { QueueShapeSmaller(q[1..], active, name); }
  }

  lemma {:induction false} QueueShapeLarger(q: seq<Session>, active: map<string, Session>, name: string, s: Session)
    requires QueueShape(q, active) && name !in ByName(q)
    ensures QueueShape(q, active[name := s])
  {
    if q != [] { QueueShapeLarger(q[1..], active, name, s); }
  }

  lemma {:induction false} QueueShapeApart(q: seq<Session>, active: map<string, Session>)
    requires QueueShape(q, active)
    ensures ByName(q).Keys !! active.Keys
    ensures QueueHasClients(q)
  {
    if q != [] {
      QueueShapeApart(q[1..], active);
      assert forall i | 0 < i < |q| :: q[i] == q[1..][i - 1];
    }
  }

  // Taking entry `i` out is undone by putting it in hand.
  lemma {:induction false} QueueWithout(q: seq<Session>, i: nat, active: map<string, Session>)
    requires QueueShape(q, active) && i < |q|
    ensures QueueShape([q[i]] + (q[..i] + q[i + 1..]), active)
    ensures ByName([q[i]] + (q[..i] + q[i + 1..])) == ByName(q)
  {
    var rest := q[..i] + q[i + 1..];
    if i == 0 {
      assert [q[i]] + rest == q;
    } else {
      var t := q[1..];
      QueueWithout(t, i - 1, active);
      var trest := t[..i - 1] + t[i..];
      assert t[i - 1] == q[i];
      assert rest == [q[0]] + trest;
      QueueShapeFront(q[i], trest, active);
      ByNameFront(q[i], trest);
      QueueShapeFront(q[0], trest, active);
      ByNameFront(q[0], trest);
      QueueShapeFront(q[i], rest, active);
      ByNameFront(q[i], rest);
    }
  }

  // -------------------------------------------------------------------------------------------
  // Who holds what, as one session changes
  // -------------------------------------------------------------------------------------------

  lemma HeldAt(live: map<string, Session>, k: string)
    ensures k in Held(live) <==> k in live && live[k].holds
    ensures k in Held(live) ==> Held(live)[k] == multiset(Backends(live[k]))
  {}

  lemma HeldAfter(live: map<string, Session>, n: string, s: Session)
    ensures Held(live[n := s]) == if s.holds then Held(live)[n := multiset(Backends(s))] else Held(live) - {n}
  {
    hide Held, BackendNames;
    var after := Held(live[n := s]);
    forall k
      ensures k in after <==> (k != n && k in Held(live)) || (k == n && s.holds)
      ensures k in after ==> after[k] == if k == n then multiset(Backends(s)) else Held(live)[k]
    {
      HeldAt(live, k);
      HeldAt(live[n := s], k);
    }
  }

  lemma LiveFront(active: map<string, Session>, s: Session, q: seq<Session>)
    ensures Live(active, [s] + q) == Live(active, q)[s.profile.name := s]
  {
    ByNameFront(s, q);
  }

  lemma LiveActive(active: map<string, Session>, q: seq<Session>, n: string, s: Session)
    requires n !in ByName(q)
    ensures Live(active[n := s], q) == Live(active, q)[n := s]
    ensures Live(active - {n}, q) == Live(active, q) - {n}
    ensures n in active ==> Live(active - {n}, q)[n := active[n]] == Live(active, q)
  {
    hide ByName;
  }

  lemma NotLive(active: map<string, Session>, q: seq<Session>, n: string)
    ensures n !in Live(active, q) <==> n !in active && n !in ByName(q)
  {}

  // -------------------------------------------------------------------------------------------
  // A session in hand is accounted for as if it stood at the front of the queue.
  // -------------------------------------------------------------------------------------------

  ghost function WithHand(st: State, s: Session): State {
    st.(queue := [s] + st.queue)
  }

  lemma InHand(st: State, s: Session)
    ensures Sound(WithHand(st, s)) <==>
            && ActiveShape(st.active) && QueueShape(st.queue, st.active)
            && s.profile.name != "" && s.profile.client.Some?
            && s.profile.name !in Live(st.active, st.queue)
            && Books(st, Live(st.active, st.queue)[s.profile.name := s])
            && st.created == |st.active| + |st.queue| + 1 + |st.ended|
  {
    QueueShapeFront(s, st.queue, st.active);
    LiveFront(st.active, s, st.queue);
  }

  lemma NewSessionInHand(st: State, s: Session)
    requires Sound(st) && !s.holds
    requires s.profile.name != "" && s.profile.client.Some?
    requires s.profile.name !in st.active && !IsQueued(st.queue, s.profile.name)
    ensures Sound(WithHand(st.(created := st.created + 1), s))
  {
    hide ActiveShape, Balanced, QueueShape, Live, Held, ByName, IsQueued, BackendNames;
    var st1 := st.(created := st.created + 1);
    ByNameIsQueued(st.queue, s.profile.name);
    var live := Live(st.active, st.queue);
    NotLive(st.active, st.queue, s.profile.name);
    HeldAfter(live, s.profile.name, s);
    HeldAt(live, s.profile.name);
    assert Held(live[s.profile.name := s]) == Held(live);
    InHand(st1, s);
  }

  lemma FlagsDoNotMatter(st: State, s: Session, t: Session)
    requires Sound(WithHand(st, s))
    requires t.profile == s.profile && t.holds == s.holds
    ensures Sound(WithHand(st, t))
  {
    InHand(st, s);
    InHand(st, t);
    var live := Live(st.active, st.queue);
    HeldAfter(live, s.profile.name, s);
    HeldAfter(live, s.profile.name, t);
  }

  lemma ReserveKeepsBooks(st: State, live: map<string, Session>, s: Session)
    requires s.profile.name != ""
    requires Books(st, live[s.profile.name := s])
    ensures var (st1, s1, _) := ReserveFor(st, s); Books(st1, live[s.profile.name := s1])
  {
    hide Balanced, BackendNames, Held, AllAvailable, Granted;
    var (st1, s1, ok) := ReserveFor(st, s);
    if ok {
      var name, names := s.profile.name, Backends(s);
      HeldAfter(live, name, s);
      HeldAfter(live, name, s1);
      var before := Held(live[name := s]);
      if s.holds {
        SecondGrantIsSurplus(st.booker, before, st.external, st.surplus, names, name);
      } else {
        FirstGrantBalances(st.booker, before, st.external, st.surplus, names, name);
        assert before[name := multiset(names)] == Held(live)[name := multiset(names)];
      }
    }
  }

  lemma ReserveKeepsSound(st: State, s: Session)
    requires Sound(WithHand(st, s))
    ensures Sound(WithHand(ReserveFor(st, s).0, ReserveFor(st, s).1))
  {
    hide Sound, Books, BackendNames, Live, QueueShape, ActiveShape, AllAvailable, Granted;
    InHand(st, s);
    ReserveKeepsBooks(st, Live(st.active, st.queue), s);
    InHand(ReserveFor(st, s).0, ReserveFor(st, s).1);
  }

  lemma EnqueueKeepsSound(st: State, s: Session)
    requires Sound(WithHand(st, s))
    ensures Sound(Enqueue(st, s))
  {
    InHand(st, s);
    QueueShapeFront(s, st.queue, st.active);
    QueueBack(st.queue, s, st.active);
    LiveFront(st.active, s, st.queue);
    assert Live(st.active, st.queue + [s]) == Live(st.active, [s] + st.queue);
  }

  lemma CleanupKeepsBooks(st: State, live: map<string, Session>, s: Session)
    requires s.profile.name !in live
    requires Books(st, live[s.profile.name := s])
    ensures Books(Cleanup(st, s, Backends(s)), live)
  {
    hide Balanced, BackendNames, Released;
    var name, names := s.profile.name, Backends(s);
    HeldAfter(live, name, s);
    assert name !in Held(live);
    var before := Held(live[name := s]);
    if s.holds {
      ReleaseBalances(st.booker, before, st.external, st.surplus, names, name);
      assert before - {name} == Held(live);
    } else {
      assert before == Held(live);
    }
  }

  lemma CleanupKeepsSound(st: State, s: Session)
    requires Sound(WithHand(st, s))
    ensures Sound(Cleanup(st, s, Backends(s)))
  {
    hide Books, BackendNames, QueueShape, ActiveShape, Released, Live;
    InHand(st, s);
    CleanupKeepsBooks(st, Live(st.active, st.queue), s);
  }

  lemma ActivateKeepsShape(active: map<string, Session>, s: Session)
    requires ActiveShape(active) && ActiveOk(s.profile.name, s)
    requires forall n | n in active :: active[n].profile.client != s.profile.client
    ensures ActiveShape(active[s.profile.name := s])
  {
    var name := s.profile.name;
    var after := active[name := s];
    forall n | n in after ensures ActiveOk(n, after[n]) {
      assert n != name ==> after[n] == active[n];
    }
  }

  lemma ActivateKeepsSound(st: State, s: Session)
    requires Sound(WithHand(st, s))
    requires s.started && s.holds && !ClientActive(st, s.profile.client.value)
    ensures Sound(st.(active := st.active[s.profile.name := s]))
  {
    hide Balanced, BackendNames, QueueShape, ActiveShape, Live;
    InHand(st, s);
    NotLive(st.active, st.queue, s.profile.name);
    var name := s.profile.name;
    QueueShapeLarger(st.queue, st.active, name, s);
    LiveActive(st.active, st.queue, name, s);
    forall n | n in st.active ensures st.active[n].profile.client != s.profile.client {
      assert st.active[n].profile.client != Some(s.profile.client.value);
    }
    ActivateKeepsShape(st.active, s);
  }

  lemma StartSyncNowKeepsSound(st: State, s: Session, env: Env)
    requires Sound(WithHand(st, s)) && s.holds
    requires s.profile.client.Some? && !ClientActive(st, s.profile.client.value)
    ensures var (st1, s1, ok) := StartSyncNow(st, s, env);
            && (ok ==> Sound(st1))
            && (!ok ==> st1 == st && s1.profile == s.profile && s1.holds && Sound(WithHand(st1, s1)))
  {
    var (st1, s1, ok) := StartSyncNow(st, s, env);
    FlagsDoNotMatter(st, s, s1);
    if ok {
      ActivateKeepsSound(st, s1);
    }
  }

  lemma RetireKeepsShape(active: map<string, Session>, name: string)
    requires ActiveShape(active) && name in active
    ensures ActiveShape(active - {name}) && ActiveOk(name, active[name])
    ensures |active| == |active - {name}| + 1
  {
    assert active.Keys == (active - {name}).Keys + {name};
  }

  lemma RetiredInHand(st: State, name: string)
    requires Sound(st) && name in st.active
    ensures Sound(WithHand(st.(active := st.active - {name}), st.active[name]))
  {
    hide Balanced, BackendNames, QueueShape, ActiveShape, Live, ByName;
    var s := st.active[name];
    var st1 := st.(active := st.active - {name});
    RetireKeepsShape(st.active, name);
    QueueShapeApart(st.queue, st.active);
    QueueShapeSmaller(st.queue, st.active, name);
    LiveActive(st.active, st.queue, name, s);
    NotLive(st1.active, st.queue, name);
    InHand(st1, s);
  }
}
