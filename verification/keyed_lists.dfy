/** Lists with a key for each element, searched from the front, as the source keeps them. */
module KeyedLists {
  import opened Sorting
  import opened Wrappers
  import Text

  datatype Keyed<+V> = Keyed(key: string, value: V)

  predicate KeyLeq<V>(a: Keyed<V>, b: Keyed<V>) {
    Text.Leq(a.key, b.key)
  }

  lemma KeyOrder<V(!new)>()
    ensures TotalPreorder<Keyed<V>>(KeyLeq)
  {
    forall a: Keyed<V>, b: Keyed<V> ensures KeyLeq(a, b) || KeyLeq(b, a) {
      Text.LeqTotal(a.key, b.key);
    }
    forall a: Keyed<V>, b: Keyed<V>, c: Keyed<V> | KeyLeq(a, b) && KeyLeq(b, c) ensures KeyLeq(a, c) {
      Text.LeqTransitive(a.key, b.key, c.key);
    }
  }

  predicate UniqueKeys<V>(t: seq<Keyed<V>>) {
    forall i, j :: 0 <= i < j < |t| ==> t[i].key != t[j].key
  }

  ghost predicate HasKey<V>(t: seq<Keyed<V>>, key: string) {
    exists e <- t :: e.key == key
  }

  /** `iter().find(..)`: the first element with the key. */
  function Lookup<V>(t: seq<Keyed<V>>, key: string): Option<V> {
    if t == [] then None else if t[0].key == key then Some(t[0].value) else Lookup(t[1..], key)
  }

  /** The first element with the key is replaced; without one, a new element is pushed. */
  function Put<V>(t: seq<Keyed<V>>, key: string, value: V): seq<Keyed<V>> {
    if t == [] then [Keyed(key, value)]
    else if t[0].key == key then [Keyed(key, value)] + t[1..]
    else [t[0]] + Put(t[1..], key, value)
  }

  method Find<V>(t: seq<Keyed<V>>, key: string) returns (found: Option<nat>)
    ensures found.Some? ==> IsFirst(t, key, found.value) && Lookup(t, key) == Some(t[found.value].value)
                            && forall value :: t[found.value := Keyed(key, value)] == Put(t, key, value)
    ensures found.None? ==> !HasKey(t, key) && Lookup(t, key) == None
                            && forall value :: t + [Keyed(key, value)] == Put(t, key, value)
  {
    for i := 0 to |t|
      invariant forall j :: 0 <= j < i ==> t[j].key != key
    {
      if t[i].key == key {
        forall value ensures t[i := Keyed(key, value)] == Put(t, key, value) {
          PutAt(t, key, i, value);
        }
        LookupAt(t, key, i);
        return Some(i);
      }
    }
    forall value ensures t + [Keyed(key, value)] == Put(t, key, value) {
      PutLast(t, key, value);
    }
    LookupIsMember(t, key);
    found := None;
  }

  predicate IsFirst<V>(t: seq<Keyed<V>>, key: string, i: nat) {
    i < |t| && t[i].key == key && forall j :: 0 <= j < i ==> t[j].key != key
  }

  lemma {:induction false} LookupAt<V>(t: seq<Keyed<V>>, key: string, i: nat)
    requires IsFirst(t, key, i)
    ensures Lookup(t, key) == Some(t[i].value)
  {
    if i > 0 {
      LookupAt(t[1..], key, i - 1);
    }
  }

  lemma {:induction false} PutAt<V>(t: seq<Keyed<V>>, key: string, i: nat, value: V)
    requires IsFirst(t, key, i)
    ensures t[i := Keyed(key, value)] == Put(t, key, value)
  {
    if i > 0 {
      PutAt(t[1..], key, i - 1, value);
      assert t[i := Keyed(key, value)] == [t[0]] + t[1..][i - 1 := Keyed(key, value)];
    }
  }

  lemma {:induction false} PutLast<V>(t: seq<Keyed<V>>, key: string, value: V)
    requires !HasKey(t, key)
    ensures t + [Keyed(key, value)] == Put(t, key, value)
  {
    if t != [] {
      assert t[0] in t;
      assert forall e <- t[1..] :: e in t;
      PutLast(t[1..], key, value);
      assert t + [Keyed(key, value)] == [t[0]] + (t[1..] + [Keyed(key, value)]);
    }
  }

  lemma {:induction false} LookupIsMember<V>(t: seq<Keyed<V>>, key: string)
    ensures Lookup(t, key).Some? <==> HasKey(t, key)
  {
    if t != [] {
      LookupIsMember(t[1..], key);
      assert t == [t[0]] + t[1..];
      assert t[0] in t;
    }
  }

  lemma {:induction false} PutThenLookup<V>(t: seq<Keyed<V>>, key: string, value: V, other: string)
    ensures Lookup(Put(t, key, value), other) == if other == key then Some(value) else Lookup(t, other)
    ensures HasKey(Put(t, key, value), other) <==> other == key || HasKey(t, other)
  {
    if t != [] && t[0].key != key {
      PutThenLookup(t[1..], key, value, other);
      assert Put(t, key, value)[1..] == Put(t[1..], key, value);
    }
    LookupIsMember(t, other);
    LookupIsMember(Put(t, key, value), other);
  }

  lemma {:induction false} PutKeepsUnique<V>(t: seq<Keyed<V>>, key: string, value: V)
    requires UniqueKeys(t)
    ensures UniqueKeys(Put(t, key, value))
  {
    if t != [] && t[0].key != key {
      PutKeepsUnique(t[1..], key, value);
      var rest := Put(t[1..], key, value);
      PutThenLookup(t[1..], key, value, t[0].key);
      forall j | 0 <= j < |rest| ensures rest[j].key != t[0].key {
        assert rest[j].key == t[0].key ==> HasKey(rest, t[0].key);
      }
    }
  }

  function Sorted<V>(t: seq<Keyed<V>>): seq<Keyed<V>> {
    Sort(KeyLeq, t)
  }

  /** A stable insertion: the new element is found under its key, every other key as before. */
  lemma {:induction false} InsertThenLookup<V>(t: seq<Keyed<V>>, e: Keyed<V>, other: string)
    ensures Lookup(Insert(KeyLeq, e, t), other) == if other == e.key then Some(e.value) else Lookup(t, other)
  {
    var r := Insert(KeyLeq, e, t);
    if t == [] || KeyLeq(e, t[0]) {
      assert r[1..] == t;
    } else {
      Text.LeqReflexive(e.key);
      InsertThenLookup(t[1..], e, other);
      assert r[1..] == Insert(KeyLeq, e, t[1..]);
    }
  }

  /** Sorting changes no lookup: of several elements with one key, the first stays the first. */
  lemma {:induction false} SortKeepsLookup<V>(t: seq<Keyed<V>>, other: string)
    ensures Lookup(Sorted(t), other) == Lookup(t, other)
  {
    if t != [] {
      SortKeepsLookup(t[1..], other);
      InsertThenLookup(Sorted(t[1..]), t[0], other);
    }
  }

  lemma SortedIsSorted<V(!new)>(t: seq<Keyed<V>>)
    ensures Sorting.Sorted(KeyLeq, Sorted(t))
  {
    KeyOrder<V>();
    SortSorts(KeyLeq, t);
  }

  lemma {:induction false} SortKeepsUnique<V>(t: seq<Keyed<V>>)
    requires UniqueKeys(t)
    ensures UniqueKeys(Sorted(t))
  {
    if t != [] {
      SortKeepsUnique(t[1..]);
      LookupIsMember(t[1..], t[0].key);
      SortKeepsLookup(t[1..], t[0].key);
      LookupIsMember(Sorted(t[1..]), t[0].key);
      InsertKeepsUnique(Sorted(t[1..]), t[0]);
    }
  }

  lemma {:induction false} InsertKeepsUnique<V>(t: seq<Keyed<V>>, e: Keyed<V>)
    requires !HasKey(t, e.key) && UniqueKeys(t)
    ensures UniqueKeys(Insert(KeyLeq, e, t))
  {
    var r := Insert(KeyLeq, e, t);
    if t == [] || KeyLeq(e, t[0]) {
      assert r[1..] == t;
      forall j | 0 < j < |r| ensures r[j].key != e.key {
        assert r[j] == t[j - 1] && r[j] in t;
      }
    } else {
      assert t[0] in t;
      assert forall x <- t[1..] :: x in t;
      InsertKeepsUnique(t[1..], e);
      assert r[1..] == Insert(KeyLeq, e, t[1..]);
      InsertPermutes(KeyLeq, e, t[1..]);
      forall j | 0 < j < |r| ensures r[j].key != t[0].key {
        assert r[j] in multiset(r[1..]);
        assert r[j] == e || r[j] in t[1..];
      }
    }
  }
}
