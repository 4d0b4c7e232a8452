/** The ordered multi-map in which a profile keeps its keys. The entries stand in the order of
    iteration: by key, and among equal keys the newest first. */
module MultiMaps {
  import opened Wrappers

  datatype Entry = Entry(key: string, value: string)

  type MultiMap = seq<Entry>

  predicate Less(a: string, b: string) {
    if a == [] || b == [] then a == [] && b != []
    else a[0] < b[0] || (a[0] == b[0] && Less(a[1..], b[1..]))
  }

  ghost predicate Ordered(m: MultiMap) {
    m != [] ==> Ordered(m[1..]) && forall e | e in m[1..] :: !Less(e.key, m[0].key)
  }

  function Values(m: MultiMap, key: string): seq<string> {
    if m == [] then []
    else (if m[0].key == key then [m[0].value] else []) + Values(m[1..], key)
  }

  // The value that subscripting finds: that of the first entry with the key.
  function Lookup(m: MultiMap, key: string): Option<string> {
    if m == [] then None else if m[0].key == key then Some(m[0].value) else Lookup(m[1..], key)
  }

  function InsertMulti(m: MultiMap, key: string, value: string): MultiMap {
    if m == [] || !Less(m[0].key, key) then [Entry(key, value)] + m
    else [m[0]] + InsertMulti(m[1..], key, value)
  }

  // Overwrites the newest value of the key, if it has one.
  function Insert(m: MultiMap, key: string, value: string): MultiMap {
    if m == [] || Less(key, m[0].key) then [Entry(key, value)] + m
    else if m[0].key == key then [Entry(key, value)] + m[1..]
    else [m[0]] + Insert(m[1..], key, value)
  }

  function Remove(m: MultiMap, key: string): MultiMap {
    if m == [] then [] else (if m[0].key == key then [] else [m[0]]) + Remove(m[1..], key)
  }

  // The other map's entries are inserted from its last to its first.
  function Unite(m: MultiMap, other: MultiMap): MultiMap {
    if other == [] then m
    else InsertMulti(Unite(m, other[1..]), other[0].key, other[0].value)
  }

  // A map filled by inserting the entries from the first to the last.
  function Collect(entries: seq<Entry>): MultiMap {
    if entries == [] then []
    else
      var n := |entries| - 1;
      InsertMulti(Collect(entries[..n]), entries[n].key, entries[n].value)
  }

  function Reversed<T>(s: seq<T>): (r: seq<T>)
    ensures |r| == |s| && multiset(r) == multiset(s)
  {
    if s == [] then []
    else
      assert s == [s[0]] + s[1..];
      Reversed(s[1..]) + [s[0]]
  }

  lemma {:induction false} ReversedConcat<T>(a: seq<T>, b: seq<T>)
    ensures Reversed(a + b) == Reversed(b) + Reversed(a)
  {
    if a == [] {
      assert a + b == b;
    } else {
      assert (a + b)[1..] == a[1..] + b;
      ReversedConcat(a[1..], b);
    }
  }

  lemma {:induction false} ReversedTwice<T>(s: seq<T>)
    ensures Reversed(Reversed(s)) == s
  {
    if s != [] {
      ReversedConcat(Reversed(s[1..]), [s[0]]);
      ReversedTwice(s[1..]);
      assert Reversed([s[0]]) == [s[0]];
    }
  }

  lemma {:induction false} LessIsStrict(a: string, b: string)
    ensures Less(a, b) ==> !Less(b, a)
    ensures !Less(a, b) && !Less(b, a) <==> a == b
  {
    if a != [] && b != [] {
      LessIsStrict(a[1..], b[1..]);
      assert a == [a[0]] + a[1..] && b == [b[0]] + b[1..];
    }
  }

  // The order of keys: the first place where they differ decides, and what ends there comes first.
  lemma {:induction false} LessIsLexicographic(a: string, b: string)
    ensures Less(a, b) <==>
            exists i :: 0 <= i <= |a| && i < |b| && a[..i] == b[..i] && (i < |a| ==> a[i] < b[i])
  {
    if a == [] || b == [] {
      assert b != [] ==> a[..0] == b[..0];
    } else {
      LessIsLexicographic(a[1..], b[1..]);
      if Less(a, b) {
        if a[0] < b[0] {
          assert a[..0] == b[..0];
        } else {
          var i :| 0 <= i <= |a| - 1 && i < |b| - 1 && a[1..][..i] == b[1..][..i]
                   && (i < |a| - 1 ==> a[1..][i] < b[1..][i]);
          assert a[..i + 1] == [a[0]] + a[1..][..i] && b[..i + 1] == [b[0]] + b[1..][..i];
        }
      }
      if i :| 0 <= i <= |a| && i < |b| && a[..i] == b[..i] && (i < |a| ==> a[i] < b[i]) {
        if i > 0 {
          assert a[0] == a[..i][0] == b[..i][0] == b[0];
          assert a[1..][..i - 1] == a[..i][1..] && b[1..][..i - 1] == b[..i][1..];
          assert i < |a| ==> a[1..][i - 1] < b[1..][i - 1];
        }
      }
    }
  }

  lemma {:induction false} LessIsTransitive(a: string, b: string, c: string)
    requires Less(a, b) && Less(b, c)
    ensures Less(a, c)
  {
    if a != [] && a[0] == b[0] == c[0] {
      LessIsTransitive(a[1..], b[1..], c[1..]);
    }
  }

  lemma LookupIsNewest(m: MultiMap, key: string)
    ensures Lookup(m, key) == if Values(m, key) == [] then None else Some(Values(m, key)[0])
  {}

  lemma {:induction false} ValuesConcat(a: MultiMap, b: MultiMap, key: string)
    ensures Values(a + b, key) == Values(a, key) + Values(b, key)
  {
    if a == [] {
      assert a + b == b;
    } else {
      assert (a + b)[1..] == a[1..] + b;
      ValuesConcat(a[1..], b, key);
    }
  }

  lemma {:induction false} KeyIsPresent(m: MultiMap, i: nat)
    requires i < |m|
    ensures Values(m, m[i].key) != []
  {
    if i > 0 {
      KeyIsPresent(m[1..], i - 1);
    }
  }

  lemma {:induction false} KeyOfValue(m: MultiMap, key: string) returns (i: nat)
    requires Values(m, key) != []
    ensures i < |m| && m[i].key == key
  {
    if m[0].key == key {
      i := 0;
    } else {
      i := KeyOfValue(m[1..], key);
      i := i + 1;
    }
  }

  // A key with no values among the entries.
  lemma {:induction false} Absent(m: MultiMap, key: string)
    requires forall e | e in m :: e.key != key
    ensures Values(m, key) == []
  {
    if m != [] {
      Absent(m[1..], key);
    }
  }

  lemma ValuesFront(e: Entry, m: MultiMap, k: string)
    ensures Values([e] + m, k) == (if e.key == k then [e.value] else []) + Values(m, k)
  {
    assert ([e] + m)[1..] == m;
  }

  lemma {:induction false} InsertedMultiValues(m: MultiMap, key: string, value: string, k: string)
    ensures Values(InsertMulti(m, key, value), k) == (if k == key then [value] else []) + Values(m, k)
  {
    hide Less;
    if m == [] || !Less(m[0].key, key) {
      ValuesFront(Entry(key, value), m, k);
    } else {
      LessIsStrict(m[0].key, key);
      InsertedMultiValues(m[1..], key, value, k);
      ValuesFront(m[0], InsertMulti(m[1..], key, value), k);
    }
  }

  lemma {:induction false} InsertedMultiMembers(m: MultiMap, key: string, value: string)
    ensures forall e :: e in InsertMulti(m, key, value) <==> e in m || e == Entry(key, value)
  {
    hide Less;
    if m != [] && Less(m[0].key, key) {
      InsertedMultiMembers(m[1..], key, value);
      assert m == [m[0]] + m[1..];
    }
  }

  // Not-less-than is transitive.
  lemma LessOrNot(a: string, b: string, c: string)
    requires !Less(b, a) && Less(b, c)
    ensures Less(a, c)
  {
    hide Less;
    LessIsStrict(a, b);
    if a != b {
      LessIsTransitive(a, b, c);
    }
  }

  lemma {:induction false} InsertMultiKeepsOrder(m: MultiMap, key: string, value: string)
    requires Ordered(m)
    ensures Ordered(InsertMulti(m, key, value))
  {
    hide Less;
    var r := InsertMulti(m, key, value);
    if m == [] || !Less(m[0].key, key) {
      assert r[1..] == m;
      forall e | e in m ensures !Less(e.key, key) {
        if Less(e.key, key) && e != m[0] {
          LessOrNot(m[0].key, e.key, key);
        }
      }
    } else {
      InsertMultiKeepsOrder(m[1..], key, value);
      InsertedMultiMembers(m[1..], key, value);
      assert r[1..] == InsertMulti(m[1..], key, value);
      LessIsStrict(m[0].key, key);
    }
  }

  lemma {:induction false} InsertedValues(m: MultiMap, key: string, value: string, k: string)
    requires Ordered(m)
    ensures Values(Insert(m, key, value), k) ==
            if k != key then Values(m, k)
            else [value] + (if Values(m, key) == [] then [] else Values(m, key)[1..])
  {
    hide Less;
    if m == [] || Less(key, m[0].key) {
      if m != [] {
        assert m == [m[0]] + m[1..];
        LessIsStrict(key, m[0].key);
      }
      Absent(m, key);
      ValuesFront(Entry(key, value), m, k);
    } else if m[0].key == key {
      ValuesFront(Entry(key, value), m[1..], k);
    } else {
      InsertedValues(m[1..], key, value, k);
      ValuesFront(m[0], Insert(m[1..], key, value), k);
    }
  }

  lemma {:induction false} InsertKeepsOrder(m: MultiMap, key: string, value: string)
    requires Ordered(m)
    ensures Ordered(Insert(m, key, value))
    ensures forall e | e in Insert(m, key, value) :: e in m || e == Entry(key, value)
  {
    hide Less;
    var r := Insert(m, key, value);
    if m == [] || Less(key, m[0].key) {
      assert r[1..] == m;
      if m != [] {
        LessIsStrict(key, m[0].key);
      }
      forall e | e in m ensures !Less(e.key, key) {
        if Less(e.key, key) && e != m[0] {
          LessOrNot(m[0].key, e.key, key);
        }
      }
    } else if m[0].key == key {
      assert r[1..] == m[1..];
    } else {
      InsertKeepsOrder(m[1..], key, value);
      assert r[1..] == Insert(m[1..], key, value);
      assert m == [m[0]] + m[1..];
      LessIsStrict(key, m[0].key);
    }
  }

  lemma {:induction false} RemovedValues(m: MultiMap, key: string, k: string)
    ensures Values(Remove(m, key), k) == if k == key then [] else Values(m, k)
  {
    if m != [] {
      RemovedValues(m[1..], key, k);
      if m[0].key != key {
        assert ([m[0]] + Remove(m[1..], key))[1..] == Remove(m[1..], key);
      } else {
        assert [] + Remove(m[1..], key) == Remove(m[1..], key);
      }
    }
  }

  lemma {:induction false} RemoveKeepsOrder(m: MultiMap, key: string)
    requires Ordered(m)
    ensures Ordered(Remove(m, key)) && forall e :: e in Remove(m, key) <==> e in m && e.key != key
  {
    hide Less;
    if m != [] {
      RemoveKeepsOrder(m[1..], key);
      assert m == [m[0]] + m[1..];
      if m[0].key != key {
        assert ([m[0]] + Remove(m[1..], key))[1..] == Remove(m[1..], key);
      } else {
        assert [] + Remove(m[1..], key) == Remove(m[1..], key);
      }
    }
  }

  // What the other map holds comes in front of what this one held.
  lemma {:induction false} UnitedValues(m: MultiMap, other: MultiMap, k: string)
    ensures Values(Unite(m, other), k) == Values(other, k) + Values(m, k)
  {
    hide InsertMulti;
    if other != [] {
      UnitedValues(m, other[1..], k);
      InsertedMultiValues(Unite(m, other[1..]), other[0].key, other[0].value, k);
    }
  }

  lemma {:induction false} UniteKeepsOrder(m: MultiMap, other: MultiMap)
    requires Ordered(m)
    ensures Ordered(Unite(m, other))
  {
    if other != [] {
      UniteKeepsOrder(m, other[1..]);
      InsertMultiKeepsOrder(Unite(m, other[1..]), other[0].key, other[0].value);
    }
  }

  lemma SplitLast(entries: seq<Entry>, k: string)
    requires entries != []
    ensures var n := |entries| - 1;
            Values(entries, k) == Values(entries[..n], k) + if entries[n].key == k then [entries[n].value] else []
  {
    var n := |entries| - 1;
    assert entries == entries[..n] + [entries[n]];
    ValuesConcat(entries[..n], [entries[n]], k);
  }

  // Reading entries one after the other turns each key's values around.
  lemma {:induction false} CollectedValues(entries: seq<Entry>, k: string)
    ensures Values(Collect(entries), k) == Reversed(Values(entries, k))
  {
    hide InsertMulti, Values;
    if entries == [] {
      Absent(entries, k);
    } else {
      var n := |entries| - 1;
      var e := entries[n];
      var v := if e.key == k then [e.value] else [];
      CollectedValues(entries[..n], k);
      InsertedMultiValues(Collect(entries[..n]), e.key, e.value, k);
      SplitLast(entries, k);
      ReversedConcat(Values(entries[..n], k), v);
      assert Reversed(v) == v;
    }
  }

  lemma {:induction false} CollectIsOrdered(entries: seq<Entry>)
    ensures Ordered(Collect(entries))
  {
    if entries != [] {
      var n := |entries| - 1;
      CollectIsOrdered(entries[..n]);
      InsertMultiKeepsOrder(Collect(entries[..n]), entries[n].key, entries[n].value);
    }
  }

  lemma TailValues(m: MultiMap, k: string)
    requires m != []
    ensures Values(m[1..], k) == if m[0].key == k then Values(m, k)[1..] else Values(m, k)
  {
    assert [] + Values(m[1..], k) == Values(m[1..], k);
    assert ([m[0].value] + Values(m[1..], k))[1..] == Values(m[1..], k);
  }

  // No value stands under a smaller key than the first one.
  lemma FirstIsLeast(a: MultiMap, key: string)
    requires a != [] && Ordered(a) && Values(a, key) != []
    ensures !Less(key, a[0].key)
  {
    hide Less;
    var i := KeyOfValue(a, key);
    LessIsStrict(key, key);
    assert i > 0 ==> a[i] in a[1..];
  }

  lemma SameHead(a: MultiMap, b: MultiMap)
    requires a != [] && b != [] && Ordered(a) && Ordered(b)
    requires forall k :: Values(a, k) == Values(b, k)
    ensures a[0] == b[0]
  {
    hide Less, Ordered;
    var (x, y) := (a[0].key, b[0].key);
    assert Values(a, x)[0] == a[0].value && Values(b, y)[0] == b[0].value;
    FirstIsLeast(a, y);
    FirstIsLeast(b, x);
    LessIsStrict(x, y);
  }

  // An ordered map is determined by the values of each key.
  lemma {:induction false} SameValuesSameMap(a: MultiMap, b: MultiMap)
    requires Ordered(a) && Ordered(b)
    requires forall k :: Values(a, k) == Values(b, k)
    ensures a == b
  {
    hide Less;
    if a == [] || b == [] {
      if a != [] {
        KeyIsPresent(a, 0);
      } else if b != [] {
        KeyIsPresent(b, 0);
      }
    } else {
      SameHead(a, b);
      forall k ensures Values(a[1..], k) == Values(b[1..], k) {
        assert Values(a, k) == Values(b, k);
        TailValues(a, k);
        TailValues(b, k);
      }
      SameValuesSameMap(a[1..], b[1..]);
    }
  }
}
