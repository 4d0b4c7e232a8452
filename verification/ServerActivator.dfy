/** Server plug-ins run while something needs them: a transport that is up, an outside reference, or
    a profile that asks for them always. */
module Activation {
  datatype Transport = Usb | Bt | Internet

  datatype ServerProfile = ServerProfile(enabled: bool, loadAlways: bool, transports: set<Transport>)

  // The server profiles, and the transports that are up at the start.
  datatype Setup = Setup(profiles: map<string, ServerProfile>, up: set<Transport>)

  datatype Server = Server(transports: set<Transport>, refCount: nat)

  datatype Signal = Signal(name: string, enabled: bool)

  datatype State = State(
    up: set<Transport>,
    servers: map<string, Server>,
    trace: seq<Signal>,
    external: multiset<string>)

  function One(b: bool): nat {
    if b then 1 else 0
  }

  function InitialCount(p: ServerProfile, up: set<Transport>): nat {
    One(p.loadAlways) + One(Bt in up && Bt in p.transports) + One(Usb in up && Usb in p.transports)
    + One(Internet in up && Internet in p.transports)
  }

  function Initial(setup: Setup): State {
    State(setup.up,
          map n | n in setup.profiles && setup.profiles[n].enabled ::
            Server(setup.profiles[n].transports, InitialCount(setup.profiles[n], setup.up)),
          [], multiset{})
  }

  function Increment(st: State, name: string, emits: bool): State {
    if name !in st.servers then st
    else
      var d := st.servers[name];
      st.(servers := st.servers[name := d.(refCount := d.refCount + 1)],
          trace := if emits && d.refCount == 0 then st.trace + [Signal(name, true)] else st.trace)
  }

  function Decrement(st: State, name: string, emits: bool): State {
    if name !in st.servers || st.servers[name].refCount == 0 then st
    else
      var d := st.servers[name];
      st.(servers := st.servers[name := d.(refCount := d.refCount - 1)],
          trace := if emits && d.refCount == 1 then st.trace + [Signal(name, false)] else st.trace)
  }

  // Each server that lists the transport gains or loses a reference.
  function TransportChanged(st: State, names: seq<string>, t: Transport, on: bool): State
    decreases names
  {
    if names == [] then st
    else
      var n := names[0];
      var st1 := if n in st.servers && t in st.servers[n].transports
                 then (if on then Increment(st, n, true) else Decrement(st, n, true)) else st;
      TransportChanged(st1, names[1..], t, on)
  }

  // Only changes are passed on, and those of the internet never.
  function UpdateState(st: State, t: Transport, on: bool, order: seq<string>): State {
    var st1 := st.(up := if on then st.up + {t} else st.up - {t});
    if (t in st.up) != on && t != Internet then TransportChanged(st1, order, t, on) else st1
  }

  function AddRef(st: State, name: string, emits: bool): State {
    Increment(st, name, emits).(external := if name in st.servers then st.external + multiset{name} else st.external)
  }

  function RemoveRef(st: State, name: string, emits: bool): State {
    Decrement(st, name, emits).(external := st.external - multiset{name})
  }

  datatype Event =
    | TransportIs(transport: Transport, on: bool, order: seq<string>)
    | RefAdded(name: string, emits: bool)
    | RefRemoved(name: string, emits: bool)

  // Each server once, in some order.
  ghost predicate Enumerates(order: seq<string>, names: set<string>) {
    && (forall n :: n in order <==> n in names)
    && (forall i, j | 0 <= i < j < |order| :: order[i] != order[j])
  }

  // Outside references to known servers are removed by those who added them.
  ghost predicate Matched(st: State, e: Event) {
    match e
    case TransportIs(_, _, order) => Enumerates(order, st.servers.Keys)
    case RefAdded(_, _) => true
    case RefRemoved(name, _) => name in st.servers ==> name in st.external
  }

  function Step(st: State, e: Event): State {
    match e
    case TransportIs(t, on, order) => UpdateState(st, t, on, order)
    case RefAdded(name, emits) => AddRef(st, name, emits)
    case RefRemoved(name, emits) => RemoveRef(st, name, emits)
  }

  function After(setup: Setup, run: seq<Event>): State {
    if run == [] then Initial(setup) else Step(After(setup, run[..|run| - 1]), run[|run| - 1])
  }

  ghost predicate AllMatched(setup: Setup, run: seq<Event>) {
    run != [] ==>
      AllMatched(setup, run[..|run| - 1]) && Matched(After(setup, run[..|run| - 1]), run[|run| - 1])
  }

  // Everything that holds a reference to the server.
  function Needs(p: ServerProfile, setup: Setup, st: State, name: string): nat {
    One(p.loadAlways) + One(Bt in st.up && Bt in p.transports) + One(Usb in st.up && Usb in p.transports)
    + One(Internet in setup.up && Internet in p.transports) + st.external[name]
  }

  ghost predicate Counts(setup: Setup, st: State) {
    && st.servers.Keys == (set n | n in setup.profiles && setup.profiles[n].enabled)
    && (forall n | n in st.servers ::
          && st.servers[n].transports == setup.profiles[n].transports
          && st.servers[n].refCount == Needs(setup.profiles[n], setup, st, n))
  }

  lemma ChangeAt(st: State, n: string, on: bool, emits: bool)
    ensures var st1 := if on then Increment(st, n, emits) else Decrement(st, n, emits);
            && st1.servers.Keys == st.servers.Keys && st1.up == st.up && st1.external == st.external
            && (forall m | m in st.servers && m != n :: st1.servers[m] == st.servers[m])
            && (n in st.servers ==>
                  var c := st.servers[n].refCount;
                  st1.servers[n] == st.servers[n].(refCount := if on then c + 1 else if c > 0 then c - 1 else 0))
  {}

  lemma {:induction false} TransportChangeCounts(st: State, names: seq<string>, t: Transport, on: bool, m: string)
    requires forall i, j | 0 <= i < j < |names| :: names[i] != names[j]
    ensures var st1 := TransportChanged(st, names, t, on);
            && st1.servers.Keys == st.servers.Keys && st1.up == st.up && st1.external == st.external
            && (m in st.servers ==>
                  var s := st.servers[m];
                  st1.servers[m] ==
                  if m in names && t in s.transports
                  then s.(refCount := if on then s.refCount + 1 else if s.refCount > 0 then s.refCount - 1 else 0)
                  else s)
    decreases names
  {
    hide Increment, Decrement;
    if names != [] {
      var n := names[0];
      ChangeAt(st, n, on, true);
      var st1 := if n in st.servers && t in st.servers[n].transports
                 then (if on then Increment(st, n, true) else Decrement(st, n, true)) else st;
      TransportChangeCounts(st1, names[1..], t, on, m);
      assert names == [n] + names[1..];
    }
  }

  lemma NeedsMove(p: ServerProfile, setup: Setup, st: State, t: Transport, on: bool, name: string)
    ensures var before := Needs(p, setup, st, name);
            var after := Needs(p, setup, st.(up := if on then st.up + {t} else st.up - {t}), name);
            if (t in st.up) == on || t == Internet || t !in p.transports then after == before
            else if on then after == before + 1 else after == before - 1
  {}

  lemma NeedsOf(p: ServerProfile, setup: Setup, a: State, b: State, name: string)
    requires a.up == b.up && a.external == b.external
    ensures Needs(p, setup, a, name) == Needs(p, setup, b, name)
  {}

  lemma TransportKeepsCounts(setup: Setup, st: State, t: Transport, on: bool, order: seq<string>)
    requires Counts(setup, st) && Enumerates(order, st.servers.Keys)
    ensures Counts(setup, UpdateState(st, t, on, order))
    ensures forall u :: u in UpdateState(st, t, on, order).up <==> if u == t then on else u in st.up
  {
    hide TransportChanged, Needs;
    var st1 := st.(up := if on then st.up + {t} else st.up - {t});
    var st2 := UpdateState(st, t, on, order);
    TransportChangeCounts(st1, order, t, on, "");
    forall m | m in st.servers
      ensures st2.servers[m].transports == st.servers[m].transports
              && st2.servers[m].refCount == Needs(setup.profiles[m], setup, st2, m)
    {
      TransportChangeCounts(st1, order, t, on, m);
      NeedsMove(setup.profiles[m], setup, st, t, on, m);
      NeedsOf(setup.profiles[m], setup, st1, st2, m);
    }
  }

  lemma RefKeepsCounts(setup: Setup, st: State, n: string, add: bool, emits: bool)
    requires Counts(setup, st) && (!add && n in st.servers ==> n in st.external)
    ensures Counts(setup, if add then AddRef(st, n, emits) else RemoveRef(st, n, emits))
  {
    hide Increment, Decrement, One;
    var st1 := if add then AddRef(st, n, emits) else RemoveRef(st, n, emits);
    ChangeAt(st, n, add, emits);
    forall m | m in st.servers
      ensures st1.servers[m].transports == st.servers[m].transports
              && st1.servers[m].refCount == Needs(setup.profiles[m], setup, st1, m)
    {
      assert st.servers[m].refCount == Needs(setup.profiles[m], setup, st, m);
    }
  }

  /** An outside reference: one more or less for a known server, and a signal exactly if it is asked for
      and the count leaves or reaches zero. */
  lemma RefOutcome(st: State, n: string, add: bool, emits: bool)
    ensures var st1 := if add then AddRef(st, n, emits) else RemoveRef(st, n, emits);
            && st1.up == st.up && st1.servers.Keys == st.servers.Keys
            && (forall m | m in st.servers && m != n :: st1.servers[m] == st.servers[m])
            && (n !in st.servers ==> st1.trace == st.trace)
            && (n in st.servers ==>
                  var (was, now) := (st.servers[n].refCount, st1.servers[n].refCount);
                  && now == (if add then was + 1 else if was == 0 then 0 else was - 1)
                  && st1.servers[n].transports == st.servers[n].transports
                  && st1.trace == st.trace + (if emits && (was == 0) != (now == 0) then [Signal(n, add)] else []))
  {
    hide One;
    assert st.trace + [] == st.trace;
  }

  lemma StepKeepsCounts(setup: Setup, st: State, e: Event)
    requires Counts(setup, st) && Matched(st, e)
    ensures Counts(setup, Step(st, e))
  {
    hide UpdateState, AddRef, RemoveRef, Counts, Enumerates;
    match e {
      case TransportIs(t, on, order) => TransportKeepsCounts(setup, st, t, on, order);
      case RefAdded(name, emits) => RefKeepsCounts(setup, st, name, true, emits);
      case RefRemoved(name, emits) => RefKeepsCounts(setup, st, name, false, emits);
    }
  }

  lemma InitiallyCounts(setup: Setup)
    ensures Counts(setup, Initial(setup))
  {}

  /** The count of a server is exactly what needs it: its load-always flag, its Bluetooth and USB
      transports that are up now, its internet if it was up at the start, and outside references. */
  lemma {:induction false} CountIsWhatNeedsIt(setup: Setup, run: seq<Event>)
    requires AllMatched(setup, run)
    ensures Counts(setup, After(setup, run))
  {
    hide Counts, Step, Matched;
    if run == [] {
      InitiallyCounts(setup);
    } else {
      CountIsWhatNeedsIt(setup, run[..|run| - 1]);
      StepKeepsCounts(setup, After(setup, run[..|run| - 1]), run[|run| - 1]);
    }
  }

  // What listeners were last told of the server; before that, how it started.
  function EnabledAfter(trace: seq<Signal>, name: string, start: bool): bool {
    if trace == [] then start
    else
      var s := trace[|trace| - 1];
      if s.name == name then s.enabled else EnabledAfter(trace[..|trace| - 1], name, start)
  }

  // Every signal about the server turns around what was told before.
  ghost predicate Alternates(trace: seq<Signal>, name: string, start: bool) {
    trace != [] ==>
      var s, before := trace[|trace| - 1], trace[..|trace| - 1];
      Alternates(before, name, start) && (s.name == name ==> s.enabled != EnabledAfter(before, name, start))
  }

  ghost predicate Told(st: State, name: string, start: bool) {
    && Alternates(st.trace, name, start)
    && (name in st.servers ==> EnabledAfter(st.trace, name, start) == (st.servers[name].refCount > 0))
    && (name !in st.servers ==> forall s | s in st.trace :: s.name != name)
  }

  lemma OneMoreSignal(trace: seq<Signal>, s: Signal, name: string, start: bool)
    requires Alternates(trace, name, start) && (s.name == name ==> s.enabled != EnabledAfter(trace, name, start))
    ensures Alternates(trace + [s], name, start)
    ensures EnabledAfter(trace + [s], name, start) ==
            if s.name == name then s.enabled else EnabledAfter(trace, name, start)
  {
    assert (trace + [s])[..|trace|] == trace;
  }

  lemma IncrementTells(st: State, n: string, name: string, start: bool)
    requires Told(st, name, start)
    ensures Told(Increment(st, n, true), name, start)
  {
    hide Alternates, EnabledAfter;
    if n in st.servers && st.servers[n].refCount == 0 {
      OneMoreSignal(st.trace, Signal(n, true), name, start);
    }
  }

  lemma DecrementTells(st: State, n: string, name: string, start: bool)
    requires Told(st, name, start)
    ensures Told(Decrement(st, n, true), name, start)
  {
    hide Alternates, EnabledAfter;
    if n in st.servers && st.servers[n].refCount == 1 {
      OneMoreSignal(st.trace, Signal(n, false), name, start);
    }
  }

  lemma {:induction false} TransportChangeTells(st: State, names: seq<string>, t: Transport, on: bool, name: string,
                                                start: bool)
    requires Told(st, name, start)
    ensures Told(TransportChanged(st, names, t, on), name, start)
    decreases names
  {
    hide Told, Increment, Decrement;
    if names != [] {
      var n := names[0];
      IncrementTells(st, n, name, start);
      DecrementTells(st, n, name, start);
      var st1 := if n in st.servers && t in st.servers[n].transports
                 then (if on then Increment(st, n, true) else Decrement(st, n, true)) else st;
      TransportChangeTells(st1, names[1..], t, on, name, start);
    }
  }

  ghost predicate AllEmit(run: seq<Event>) {
    forall e | e in run :: e.TransportIs? || e.emits
  }

  lemma StepTells(st: State, e: Event, name: string, start: bool)
    requires Told(st, name, start) && (e.TransportIs? || e.emits)
    ensures Told(Step(st, e), name, start)
  {
    hide Increment, Decrement, TransportChanged, Alternates, EnabledAfter;
    match e {
      case TransportIs(t, on, order) =>
        TransportChangeTells(st.(up := if on then st.up + {t} else st.up - {t}), order, t, on, name, start);
      case RefAdded(n, _) =>
        IncrementTells(st, n, name, start);
      case RefRemoved(n, _) =>
        DecrementTells(st, n, name, start);
    }
  }

  lemma NothingTold(setup: Setup, name: string)
    ensures Told(Initial(setup), name, name in Initial(setup).servers && Initial(setup).servers[name].refCount > 0)
  {}

  /** With signalling on, what listeners are told of a server strictly alternates, and the last they
      were told is whether it is needed now. */
  lemma {:induction false} SignalsAlternate(setup: Setup, run: seq<Event>, name: string)
    requires AllEmit(run)
    ensures var start := name in Initial(setup).servers && Initial(setup).servers[name].refCount > 0;
            Told(After(setup, run), name, start)
  {
    hide Told, Step;
    var start := name in Initial(setup).servers && Initial(setup).servers[name].refCount > 0;
    if run == [] {
      NothingTold(setup, name);
    } else {
      var n := |run| - 1;
      assert forall e | e in run[..n] :: e in run;
      SignalsAlternate(setup, run[..n], name);
      StepTells(After(setup, run[..n]), run[n], name, start);
    }
  }
}
