/** The activator and the tracker it listens to, changed in place as ServerActivator.dfy says. */
module ActivationObjects {
  import opened Activation

  // With the first k of the transports looked at.
  function CountedSoFar(p: ServerProfile, up: set<Transport>, k: nat): nat {
    One(p.loadAlways) + One(k > 0 && Bt in up && Bt in p.transports) + One(k > 1 && Usb in up && Usb in p.transports)
    + One(k > 2 && Internet in up && Internet in p.transports)
  }

  lemma OneTransportMore(p: ServerProfile, up: set<Transport>, k: nat)
    requires k < 3
    ensures var t := [Bt, Usb, Internet][k];
            CountedSoFar(p, up, k + 1) == CountedSoFar(p, up, k) + One(t in up && t in p.transports)
    ensures CountedSoFar(p, up, 0) == One(p.loadAlways) && CountedSoFar(p, up, 3) == InitialCount(p, up)
  {}

  class ServerActivator {
    const setup: Setup
    var up: set<Transport>
    var servers: map<string, Server>
    ghost var trace: seq<Signal>
    ghost var external: multiset<string>

    ghost function View(): State reads this {
      State(up, servers, trace, external)
    }

    // One reference for each transport that is up, transport by transport.
    constructor (setup: Setup)
      ensures this.setup == setup && View() == Initial(setup) && Counts(setup, View())
    {
      this.setup := setup;
      up := setup.up;
      trace, external := [], multiset{};
      var counted := map n | n in setup.profiles && setup.profiles[n].enabled ::
        Server(setup.profiles[n].transports, One(setup.profiles[n].loadAlways));
      var transports := [Bt, Usb, Internet];
      hide CountedSoFar, InitialCount;
      forall n | n in counted {
        OneTransportMore(setup.profiles[n], setup.up, 0);
      }
      for i := 0 to 3
        invariant counted.Keys == Initial(setup).servers.Keys
        invariant forall n | n in counted ::
                    counted[n] == Server(setup.profiles[n].transports, CountedSoFar(setup.profiles[n], setup.up, i))
      {
        var t := transports[i];
        forall n | n in counted {
          OneTransportMore(setup.profiles[n], setup.up, i);
        }
        counted := map n | n in counted ::
          if t in setup.up && t in counted[n].transports
          then counted[n].(refCount := counted[n].refCount + 1) else counted[n];
      }
      servers := counted;
      new;
      assert servers == Initial(setup).servers;
      InitiallyCounts(setup);
    }

    method Increment(name: string, emitSignal: bool) returns (refCount: nat)
      modifies this`servers, this`trace
      ensures View() == old(Activation.Increment(View(), name, emitSignal))
      ensures refCount == if name in servers then servers[name].refCount else 0
    {
      refCount := 0;
      if name in servers {
        refCount := servers[name].refCount + 1;
        servers := servers[name := servers[name].(refCount := refCount)];
        if emitSignal && refCount == 1 {
          trace := trace + [Signal(name, true)];
        }
      }
    }

    method Decrement(name: string, emitSignal: bool) returns (refCount: nat)
      modifies this`servers, this`trace
      ensures View() == old(Activation.Decrement(View(), name, emitSignal))
      ensures refCount == if name in servers then servers[name].refCount else 0
    {
      refCount := 0;
      if name in servers {
        var data := servers[name];
        if data.refCount > 0 {
          data := data.(refCount := data.refCount - 1);
          servers := servers[name := data];
          if emitSignal && data.refCount == 0 {
            trace := trace + [Signal(name, false)];
          }
        }
        refCount := data.refCount;
      }
    }

    method AddRef(name: string, emitSignal: bool) returns (refCount: nat)
      modifies this
      ensures View() == old(Activation.AddRef(View(), name, emitSignal))
      ensures refCount == if name in servers then servers[name].refCount else 0
    {
      refCount := Increment(name, emitSignal);
      if name in servers {
        external := external + multiset{name};
      }
    }

    method RemoveRef(name: string, emitSignal: bool) returns (refCount: nat)
      modifies this
      ensures View() == old(Activation.RemoveRef(View(), name, emitSignal))
      ensures refCount == if name in servers then servers[name].refCount else 0
    {
      refCount := Decrement(name, emitSignal);
      external := external - multiset{name};
    }

    // `order` is the order in which the map of servers is walked.
    method EnabledServers(order: seq<string>) returns (names: seq<string>)
      requires multiset(order) == multiset(servers.Keys)
      ensures forall n :: n in names <==> n in servers && servers[n].refCount > 0
      ensures forall n :: multiset(names)[n] <= 1
    {
      names := [];
      for i := 0 to |order|
        invariant forall n :: n in names <==> n in order[..i] && n in servers && servers[n].refCount > 0
        invariant multiset(names) <= multiset(order[..i])
      {
        assert order[..i + 1] == order[..i] + [order[i]];
        assert order[i] in multiset(order);
        if servers[order[i]].refCount > 0 {
          names := names + [order[i]];
        }
      }
      assert order[..|order|] == order;
      assert forall n :: n in order <==> n in multiset(order);
    }

    method OnConnectivityStateChanged(t: Transport, on: bool, order: seq<string>)
      modifies this`servers, this`trace
      ensures View() == old(TransportChanged(View(), order, t, on))
    {
      hide Activation.Increment, Activation.Decrement;
      for i := 0 to |order|
        invariant TransportChanged(View(), order[i..], t, on) == old(TransportChanged(View(), order, t, on))
      {
        assert order[i..][0] == order[i] && order[i..][1..] == order[i + 1..];
        if order[i] in servers && t in servers[order[i]].transports {
          if on {
            var _ := Increment(order[i], true);
          } else {
            var _ := Decrement(order[i], true);
          }
        }
      }
    }

    // The tracker's own update.
    method UpdateState(t: Transport, on: bool, order: seq<string>)
      modifies this
      ensures View() == old(Activation.UpdateState(View(), t, on, order))
    {
      var oldState := t in up;
      up := if on then up + {t} else up - {t};
      if oldState != on {
        if t != Internet {
          OnConnectivityStateChanged(t, on, order);
        }
      }
    }
  }
}
