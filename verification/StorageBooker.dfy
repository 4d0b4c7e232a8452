/** Reference-counted, exclusive reservations of storage back-ends.

    The first half is the arithmetic of a reservation map: `Granted` and `Released` say in closed
    form what a whole list of names does, although the code walks the list one name at a time.
    The class in the second half is the walk itself. */
module StorageBooking {

  datatype Item = Item(client: string, count: nat)

  type Bookings = map<string, Item>

  // No entry is ever kept with a count of zero.
  predicate WellCounted(m: Bookings) {
    forall s | s in m :: m[s].count >= 1
  }

  // An entry owned by the empty client is available to nobody, not even to the empty client.
  predicate Available(m: Bookings, s: string, client: string) {
    s in m ==> client != "" && m[s].client == client
  }

  predicate AllAvailable(m: Bookings, names: seq<string>, client: string) {
    forall s | s in names :: Available(m, s, client)
  }

  function Count(m: Bookings, s: string): nat {
    if s in m then m[s].count else 0
  }

  // How often one reserve call books `s`: the empty client cannot book the same name twice.
  function GrantOf(names: seq<string>, client: string, s: string): nat {
    if client == "" then (if s in names then 1 else 0) else multiset(names)[s]
  }

  function ReleaseOf(m: Bookings, names: seq<string>, s: string): nat {
    var n := multiset(names)[s];
    if n <= Count(m, s) then n else Count(m, s)
  }

  function Granted(m: Bookings, names: seq<string>, client: string): Bookings {
    map s | s in m.Keys + (set s | s in names) ::
      if s in names then Item(client, Count(m, s) + GrantOf(names, client, s)) else m[s]
  }

  function Released(m: Bookings, names: seq<string>): Bookings {
    map s | s in m && multiset(names)[s] < m[s].count :: Item(m[s].client, m[s].count - multiset(names)[s])
  }

  lemma GrantedAt(m: Bookings, names: seq<string>, client: string, s: string)
    ensures s in Granted(m, names, client) <==> s in m || s in names
    ensures s in names ==> Granted(m, names, client)[s] == Item(client, Count(m, s) + GrantOf(names, client, s))
    ensures s !in names && s in m ==> Granted(m, names, client)[s] == m[s]
    ensures s in names <==> GrantOf(names, client, s) >= 1
  {}

  lemma ReleasedAt(m: Bookings, names: seq<string>, s: string)
    requires WellCounted(m)
    ensures Count(Released(m, names), s) == Count(m, s) - ReleaseOf(m, names, s)
    ensures s in Released(m, names) <==> s in m && multiset(names)[s] < m[s].count
    ensures s in Released(m, names) ==> Released(m, names)[s] == Item(m[s].client, m[s].count - multiset(names)[s])
  {}

  // The documented pairing: releasing exactly what a successful reserve booked restores the map,
  // also with repeated names and for the empty client.
  lemma ReleaseUndoesReserve(m: Bookings, names: seq<string>, client: string)
    requires WellCounted(m) && AllAvailable(m, names, client)
    ensures WellCounted(Granted(m, names, client))
    ensures Released(Granted(m, names, client), names) == m
  {
    var g := Granted(m, names, client);
    forall s | s in g ensures g[s].count >= 1 {
      assert s in names ==> multiset(names)[s] >= 1;
    }
    forall s ensures s in Released(g, names) <==> s in m {
      assert s in names <==> multiset(names)[s] >= 1;
    }
    forall s | s in m ensures Released(g, names)[s] == m[s] {
      assert s in names <==> multiset(names)[s] >= 1;
    }
  }

  lemma GrantOfOneMore(names: seq<string>, s: string, client: string, x: string)
    requires client == "" ==> s !in names
    ensures GrantOf(names + [s], client, x) == GrantOf(names, client, x) + GrantOf([s], client, x)
  {
    assert multiset(names + [s]) == multiset(names) + multiset([s]);
  }

  lemma GrantedOneMore(m: Bookings, names: seq<string>, s: string, client: string)
    requires client == "" ==> s !in names
    ensures Granted(Granted(m, names, client), [s], client) == Granted(m, names + [s], client)
  {
    var g := Granted(m, names, client);
    var gg := Granted(g, [s], client);
    var h := Granted(m, names + [s], client);
    forall x
      ensures x in gg <==> x in h
      ensures x in h ==> gg[x] == h[x]
    {
      GrantedAt(m, names, client, x);
      GrantedAt(g, [s], client, x);
      GrantedAt(m, names + [s], client, x);
      GrantOfOneMore(names, s, client, x);
    }
  }

  lemma GrantedAgainToNobody(m: Bookings, names: seq<string>, s: string)
    requires s in names
    ensures Granted(m, names, "") == Granted(m, names + [s], "")
  {
    var g := Granted(m, names, "");
    var h := Granted(m, names + [s], "");
    assert g.Keys == h.Keys;
    assert forall x | x in h :: GrantOf(names, "", x) == GrantOf(names + [s], "", x);
  }

  lemma ReleasedOneMore(m: Bookings, names: seq<string>, s: string)
    ensures Released(Released(m, names), [s]) == Released(m, names + [s])
  {
    assert multiset(names + [s]) == multiset(names) + multiset{s};
    assert multiset([s]) == multiset{s};
  }

  // ---------------------------------------------------------------------------------------------
  // Accounting over a whole run
  // ---------------------------------------------------------------------------------------------

  datatype Request = Reserve(names: seq<string>, client: string) | Release(names: seq<string>)

  function Serve(m: Bookings, r: Request): Bookings {
    match r
    case Reserve(names, client) => if AllAvailable(m, names, client) then Granted(m, names, client) else m
    case Release(names) => Released(m, names)
  }

  function Run(rs: seq<Request>): Bookings {
    if rs == [] then map[] else Serve(Run(rs[..|rs| - 1]), rs[|rs| - 1])
  }

  // Grants of `s` handed out in a run: only by reserve calls that succeed.
  function Grants(rs: seq<Request>, s: string): nat {
    if rs == [] then 0 else
      var before := rs[..|rs| - 1];
      Grants(before, s)
      + match rs[|rs| - 1]
        case Reserve(names, client) =>
          if AllAvailable(Run(before), names, client) then GrantOf(names, client, s) else 0
        case Release(_) => 0
  }

  // Releases of `s` that had something to release.
  function Releases(rs: seq<Request>, s: string): nat {
    if rs == [] then 0 else
      var before := rs[..|rs| - 1];
      Releases(before, s)
      + match rs[|rs| - 1]
        case Reserve(_, _) => 0
        case Release(names) => ReleaseOf(Run(before), names, s)
  }

  lemma {:induction false} CountIsGrantsMinusReleases(rs: seq<Request>, s: string)
    ensures WellCounted(Run(rs))
    ensures Count(Run(rs), s) == Grants(rs, s) - Releases(rs, s)
  {
    if rs != [] {
      var before := rs[..|rs| - 1];
      CountIsGrantsMinusReleases(before, s);
      match rs[|rs| - 1] {
        case Reserve(names, client) =>
          if AllAvailable(Run(before), names, client) {
            ReleaseUndoesReserve(Run(before), names, client);
            assert s in names <==> multiset(names)[s] >= 1;
          }
        case Release(names) =>
      }
    }
  }

  // While an entry exists its owner does not change, whatever is asked for meanwhile.
  lemma {:induction false} OwnerIsFixedWhileBooked(rs: seq<Request>, i: nat, j: nat, s: string)
    requires i <= j <= |rs|
    requires forall k | i <= k <= j :: s in Run(rs[..k])
    ensures Run(rs[..i])[s].client == Run(rs[..j])[s].client
    decreases j
  {
    if i < j {
      OwnerIsFixedWhileBooked(rs, i, j - 1, s);
      assert rs[..j][..j - 1] == rs[..j - 1];
      assert s in Run(rs[..j - 1]);
    }
  }

  // ---------------------------------------------------------------------------------------------
  // The class
  // ---------------------------------------------------------------------------------------------

  class StorageBooker {
    var items: Bookings

    ghost predicate Valid() reads this { WellCounted(items) }

    constructor ()
      ensures Valid() && items == map[]
    {
      items := map[];
    }

    method ReserveStorage(s: string, client: string) returns (success: bool)
      requires Valid()
      modifies this
      ensures Valid()
      ensures success == old(Available(items, s, client))
      ensures items == if success then Granted(old(items), [s], client) else old(items)
    {
      assert multiset([s])[s] == 1;
      if s in items {
        var item := items[s];
        if client == "" || client != item.client {
          success := false;
        } else {
          items := items[s := item.(count := item.count + 1)];
          success := true;
        }
      } else {
        items := items[s := Item(client, 1)];
        success := true;
      }
    }

    method ReserveStorages(names: seq<string>, client: string) returns (success: bool)
      requires Valid()
      modifies this
      ensures Valid()
      ensures success == old(AllAvailable(items, names, client))
      ensures items == if success then Granted(old(items), names, client) else old(items)
    {
      success := StoragesAvailable(names, client);
      if success {
        for i := 0 to |names|
          invariant Valid()
          invariant items == Granted(old(items), names[..i], client)
        {
          assert names[..i + 1] == names[..i] + [names[i]];
          GrantedAt(old(items), names[..i], client, names[i]);
          assert names[i] in names;
          if client == "" && names[i] in names[..i] {
            GrantedAgainToNobody(old(items), names[..i], names[i]);
            assert !Available(items, names[i], client);
          } else {
            GrantedOneMore(old(items), names[..i], names[i], client);
            assert Available(items, names[i], client);
          }
          var _ := ReserveStorage(names[i], client);
        }
        assert names[..|names|] == names;
      }
    }

    method ReleaseStorage(s: string) returns (remaining: nat)
      requires Valid()
      modifies this
      ensures Valid()
      ensures items == Released(old(items), [s])
      ensures remaining == Count(items, s)
    {
      assert multiset([s])[s] == 1;
      remaining := 0;
      if s in items {
        var item := items[s];
        remaining := item.count - 1;
        if remaining == 0 {
          items := items - {s};
        } else {
          items := items[s := item.(count := remaining)];
        }
      }
    }

    method ReleaseStorages(names: seq<string>)
      requires Valid()
      modifies this
      ensures Valid()
      ensures items == Released(old(items), names)
    {
      for i := 0 to |names|
        invariant Valid()
        invariant items == Released(old(items), names[..i])
      {
        assert names[..i + 1] == names[..i] + [names[i]];
        ReleasedOneMore(old(items), names[..i], names[i]);
        var _ := ReleaseStorage(names[i]);
      }
      assert names[..|names|] == names;
    }

    predicate IsStorageAvailable(s: string, client: string)
      reads this
    {
      s !in items || (client != "" && client == items[s].client)
    }

    method StoragesAvailable(names: seq<string>, client: string) returns (r: bool)
      ensures r == AllAvailable(items, names, client)
    {
      for i := 0 to |names|
        invariant AllAvailable(items, names[..i], client)
      {
        if !IsStorageAvailable(names[i], client) {
          assert names[i] in names;
          return false;
        }
      }
      assert names[..|names|] == names;
      return true;
    }
  }
}
