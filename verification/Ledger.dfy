/** The books behind the reservation map: who is entitled to which part of each count.

    `held` maps a profile name to the back-ends its live session booked and still has to give back,
    `external` is what plug-ins and D-Bus callers booked, and `surplus` is what was booked a second
    time for a session that already had its storages; nobody gives the surplus back. */
module Ledger {
  import opened StorageBooking

  type Holdings = map<string, multiset<string>>

  function HeldBy(held: Holdings, owner: string, s: string): nat {
    if owner in held then held[owner][s] else 0
  }

  ghost predicate Owned(m: Bookings, held: Holdings) {
    forall n, s | n in held && s in held[n] :: s in m && m[s].client == n
  }

  ghost predicate Balanced(m: Bookings, held: Holdings, external: multiset<string>, surplus: multiset<string>) {
    && Owned(m, held)
    && (forall s | s in m :: m[s].count >= 1)
    && (forall s | s in m :: m[s].count == HeldBy(held, m[s].client, s) + external[s] + surplus[s])
    && (forall s | s in external :: s in m)
    && (forall s | s in surplus :: s in m)
  }

  // What one successful reserve call adds to the books.
  function GrantedTo(names: seq<string>, client: string): multiset<string> {
    if client == "" then multiset(set s | s in names) else multiset(names)
  }

  lemma GrantedToCounts(names: seq<string>, client: string, s: string)
    ensures GrantedTo(names, client)[s] == GrantOf(names, client, s)
    ensures s in GrantedTo(names, client) <==> s in names
  {}

  lemma FirstGrantBalances(m: Bookings, held: Holdings, external: multiset<string>, surplus: multiset<string>,
                           names: seq<string>, n: string)
    requires Balanced(m, held, external, surplus)
    requires n != "" && AllAvailable(m, names, n)
    requires n in held ==> held[n] == multiset{}
    ensures Balanced(Granted(m, names, n), held[n := multiset(names)], external, surplus)
  {
    var g := Granted(m, names, n);
    var h := held[n := multiset(names)];
    forall s | s in g
      ensures g[s].count >= 1
      ensures g[s].count == HeldBy(h, g[s].client, s) + external[s] + surplus[s]
    {
      GrantedAt(m, names, n, s);
      assert s in names ==> s in multiset(names);
      if s in names && s in m {
        assert m[s].client == n;
        assert HeldBy(held, n, s) == 0;
      }
    }
    forall k, s | k in h && s in h[k] ensures s in g && g[s].client == k {
      GrantedAt(m, names, n, s);
      assert k == n ==> s in names;
    }
  }

  lemma RegrantAt(m: Bookings, names: seq<string>, n: string, s: string)
    requires n != "" && forall x | x in names :: x in m && m[x].client == n
    ensures s in Granted(m, names, n) <==> s in m
    ensures s in m ==> Granted(m, names, n)[s] == Item(m[s].client, m[s].count + multiset(names)[s])
  {
    GrantedAt(m, names, n, s);
  }

  lemma MoreIsSurplus(m: Bookings, held: Holdings, external: multiset<string>, surplus: multiset<string>,
                      g: Bookings, extra: multiset<string>)
    requires Balanced(m, held, external, surplus)
    requires g.Keys == m.Keys && forall s | s in m :: g[s] == Item(m[s].client, m[s].count + extra[s])
    requires forall s | s in extra :: s in m
    ensures Balanced(g, held, external, surplus + extra)
  {
    hide HeldBy;
  }

  lemma SecondGrantIsSurplus(m: Bookings, held: Holdings, external: multiset<string>, surplus: multiset<string>,
                             names: seq<string>, n: string)
    requires Balanced(m, held, external, surplus)
    requires n != "" && n in held && held[n] == multiset(names)
    ensures AllAvailable(m, names, n)
    ensures Balanced(Granted(m, names, n), held, external, surplus + multiset(names))
  {
    hide Granted, HeldBy;
    forall s | s in names ensures s in m && m[s].client == n {
      assert s in held[n];
    }
    var g := Granted(m, names, n);
    forall s
      ensures s in g <==> s in m
      ensures s in m ==> g[s] == Item(m[s].client, m[s].count + multiset(names)[s])
    {
      RegrantAt(m, names, n, s);
    }
    assert g.Keys == m.Keys;
    assert forall s | s in multiset(names) :: s in m;
    MoreIsSurplus(m, held, external, surplus, g, multiset(names));
  }

  lemma ReleaseBalances(m: Bookings, held: Holdings, external: multiset<string>, surplus: multiset<string>,
                        names: seq<string>, n: string)
    requires Balanced(m, held, external, surplus)
    requires n in held && held[n] == multiset(names)
    ensures Balanced(Released(m, names), held - {n}, external, surplus)
  {
    var r := Released(m, names);
    forall s | s in m
      ensures s !in r ==> external[s] == 0 && surplus[s] == 0
      ensures s in r ==> r[s].count == HeldBy(held - {n}, r[s].client, s) + external[s] + surplus[s]
    {
      ReleasedAt(m, names, s);
      assert held[n][s] == multiset(names)[s];
      assert s in held[n] ==> m[s].client == n;
    }
    forall k, s | k in held && k != n && s in held[k] ensures s in r && r[s].client == k {
      ReleasedAt(m, names, s);
      assert m[s].client == k;
      assert s !in held[n];
    }
  }

  // What the grant does to one entry: the owner stays, and a new owner holds nothing of it yet.
  lemma ExternalGrantAt(m: Bookings, held: Holdings, external: multiset<string>, surplus: multiset<string>,
                        names: seq<string>, client: string, s: string)
    requires Balanced(m, held, external, surplus)
    requires AllAvailable(m, names, client) && s in Granted(m, names, client)
    ensures var g := Granted(m, names, client)[s];
            && g.count >= 1
            && g.count == HeldBy(held, g.client, s) + external[s] + GrantOf(names, client, s) + surplus[s]
  {
    hide Granted, GrantOf;
    GrantedAt(m, names, client, s);
    if s in m {
      assert s in names ==> m[s].client == client;
    } else {
      assert s !in external && s !in surplus;
      if client in held {
        assert s !in held[client];
      }
    }
  }

  lemma ExternalGrantBalances(m: Bookings, held: Holdings, external: multiset<string>, surplus: multiset<string>,
                              names: seq<string>, client: string)
    requires Balanced(m, held, external, surplus)
    requires AllAvailable(m, names, client)
    ensures Balanced(Granted(m, names, client), held, external + GrantedTo(names, client), surplus)
  {
    hide Granted, GrantedTo, HeldBy, GrantOf;
    var g := Granted(m, names, client);
    var more := external + GrantedTo(names, client);
    forall s | s in g
      ensures g[s].count >= 1 && g[s].count == HeldBy(held, g[s].client, s) + more[s] + surplus[s]
    {
      ExternalGrantAt(m, held, external, surplus, names, client, s);
      GrantedToCounts(names, client, s);
    }
    forall s ensures s in more ==> s in g ensures s in surplus ==> s in g {
      GrantedToCounts(names, client, s);
      GrantedAt(m, names, client, s);
    }
    forall k, s | k in held && s in held[k] ensures s in g && g[s].client == k {
      GrantedAt(m, names, client, s);
    }
  }

  lemma ExternalReleaseBalances(m: Bookings, held: Holdings, external: multiset<string>, surplus: multiset<string>,
                                names: seq<string>)
    requires Balanced(m, held, external, surplus)
    requires forall s | s in names :: ReleaseOf(m, names, s) <= external[s]
    ensures Balanced(Released(m, names), held, external - multiset(names), surplus)
  {
    var r := Released(m, names);
    forall s | s in m
      ensures s in r ==> r[s].count == HeldBy(held, m[s].client, s) + (external - multiset(names))[s] + surplus[s]
      ensures s !in r ==> HeldBy(held, m[s].client, s) == 0 && (external - multiset(names))[s] == 0 && surplus[s] == 0
    {
      assert s in names <==> multiset(names)[s] >= 1;
    }
  }

  // Enough is booked in each holder's own name.
  ghost predicate Covered(m: Bookings, held: Holdings) {
    forall n, s | n in held && s in held[n] :: s in m && m[s].client == n && m[s].count >= held[n][s]
  }

  // A release does not check who owns the entry. It leaves every live session covered exactly when
  // the counts, looked at before the call, still reach for what the sessions need.
  lemma ReleaseKeepsCoverIff(m: Bookings, held: Holdings, names: seq<string>)
    requires Covered(m, held)
    ensures Covered(Released(m, names), held) <==>
            forall n, s | n in held && s in held[n] :: multiset(names)[s] + held[n][s] <= Count(m, s)
  {
    var r := Released(m, names);
    if Covered(r, held) {
      forall n, s | n in held && s in held[n] ensures multiset(names)[s] + held[n][s] <= Count(m, s) {
        assert s in r && r[s].count >= held[n][s];
      }
    }
    if forall n, s | n in held && s in held[n] :: multiset(names)[s] + held[n][s] <= Count(m, s) {
      forall n, s | n in held && s in held[n] ensures s in r && r[s].client == n && r[s].count >= held[n][s] {
        assert multiset(names)[s] + held[n][s] <= Count(m, s);
      }
    }
  }

  // Balanced books cover every holder.
  lemma BalancedCovers(m: Bookings, held: Holdings, external: multiset<string>, surplus: multiset<string>,
                       n: string, s: string)
    requires Balanced(m, held, external, surplus) && n in held && s in held[n]
    ensures s in m && m[s].client == n && m[s].count == held[n][s] + external[s] + surplus[s]
  {}

  // With nobody left to give anything back, the map is empty exactly when nothing was booked twice.
  lemma LeftoverIsSurplus(m: Bookings, held: Holdings, external: multiset<string>, surplus: multiset<string>)
    requires Balanced(m, held, external, surplus)
    requires external == multiset{} && forall n | n in held :: held[n] == multiset{}
    ensures forall s :: Count(m, s) == surplus[s]
    ensures m == map[] <==> surplus == multiset{}
  {
    forall s ensures Count(m, s) == surplus[s] {
      if s in m {
        assert m[s].count == HeldBy(held, m[s].client, s) + external[s] + surplus[s];
      } else {
        assert s !in surplus;
      }
    }
    if m == map[] {
      assert forall s :: s !in surplus;
      assert surplus == multiset{};
    }
    if surplus == multiset{} {
      assert forall s :: s !in m;
    }
  }
}
