/** Learning direct addresses: the cache of `direct_addresses.rs` and the sampler of `connectivity.rs`. */
module DirectAddresses {
  import opened KeyedLists
  import opened Sorting
  import opened Widths
  import opened Wrappers
  import Text

  type PeerId = string
  type Address = string
  type Time = nat

  datatype Success = Success(source: string, count: U64, first: Time, last: Time)

  type Entries = seq<Keyed<Success>>

  type Cache = seq<Keyed<Entries>>

  /** `success_count` of an address, 0 when it is not cached. */
  function CountIn(entries: Entries, a: Address): U64 {
    match Lookup(entries, a)
    case None => 0
    case Some(s) => s.count
  }

  function Count(c: Cache, p: PeerId, a: Address): U64 {
    match Lookup(c, p)
    case None => 0
    case Some(entries) => CountIn(entries, a)
  }

  /** The entry the program finds for an address of a peer. */
  function Entry(c: Cache, p: PeerId, a: Address): Option<Success> {
    match Lookup(c, p)
    case None => None
    case Some(entries) => Lookup(entries, a)
  }

  /** `saturating_add(1)`. */
  function Increment(n: U64): U64 {
    if n == U64_MAX then n else n + 1
  }

  ghost predicate Unique(c: Cache) {
    UniqueKeys(c) && forall d <- c :: UniqueKeys(d.value)
  }

  // ---------- normalized address lists ----------

  function TrimmedNonEmpty(addresses: seq<Address>): seq<Address> {
    if addresses == [] then []
    else
      var rest := TrimmedNonEmpty(addresses[1..]);
      if Text.Trim(addresses[0]) == "" then rest else [Text.Trim(addresses[0])] + rest
  }

  function NormalizedAddresses(addresses: seq<Address>): seq<Address> {
    Dedup(Sort(Text.Leq, TrimmedNonEmpty(addresses)))
  }

  predicate Distinct(s: seq<Address>) {
    forall i, j :: 0 <= i < j < |s| ==> s[i] != s[j]
  }

  lemma {:induction false} DedupDistinct(s: seq<Address>)
    requires Sorting.Sorted(Text.Leq, s)
    ensures Distinct(Dedup(s))
  {
    if |s| >= 2 {
      DedupDistinct(s[1..]);
      if s[0] != s[1] {
        var rest := Dedup(s[1..]);
        forall i | 0 <= i < |rest| ensures rest[i] != s[0] {
          assert rest[i] in s[1..];
          var j :| 0 < j < |s| && s[j] == rest[i];
          if s[j] == s[0] {
            assert Text.Leq(s[0], s[1]) && (j > 1 ==> Text.Leq(s[1], s[j]));
            Text.LeqAntisymmetric(s[0], s[1]);
          }
        }
      }
    }
  }

  lemma TextOrder()
    ensures TotalPreorder(Text.Leq)
  {
    forall a, b ensures Text.Leq(a, b) || Text.Leq(b, a) { Text.LeqTotal(a, b); }
    forall a, b, c | Text.Leq(a, b) && Text.Leq(b, c) ensures Text.Leq(a, c) { Text.LeqTransitive(a, b, c); }
  }

  lemma {:induction false} TrimmedMembers(addresses: seq<Address>, a: Address)
    ensures a in TrimmedNonEmpty(addresses) <==> a != "" && exists raw :: raw in addresses && Text.Trim(raw) == a
  {
    if addresses != [] {
      TrimmedMembers(addresses[1..], a);
      assert addresses == [addresses[0]] + addresses[1..];
      if Text.Trim(addresses[0]) == a {
        assert addresses[0] in addresses;
      }
    }
  }

  /** Normalizing keeps each address once: the trimmed ones that are not empty. */
  lemma NormalizedMembers(addresses: seq<Address>, a: Address)
    ensures Distinct(NormalizedAddresses(addresses))
    ensures a in NormalizedAddresses(addresses) <==> a != "" && exists raw :: raw in addresses && Text.Trim(raw) == a
  {
    var trimmed := TrimmedNonEmpty(addresses);
    TextOrder();
    SortSorts(Text.Leq, trimmed);
    SortPermutes(Text.Leq, trimmed);
    DedupDistinct(Sort(Text.Leq, trimmed));
    assert a in Sort(Text.Leq, trimmed) <==> a in multiset(trimmed);
    TrimmedMembers(addresses, a);
  }

  // ---------- recording ----------

  function Noted(found: Option<Success>, now: Time): Success {
    match found
    case None => Success("connection", 1, now, now)
    case Some(s) => s.(count := Increment(s.count), last := now)
  }

  /** A new entry counts one success, now; an old one counts one more, up to the limit, and keeps its source and its first time. */
  predicate CountsOneMore(before: Option<Success>, after: Option<Success>, now: Time) {
    after.Some? && after.value.last == now
    && match before
       case None => after.value.source == "connection" && after.value.count == 1 && after.value.first == now
       case Some(was) =>
         after.value.source == was.source && after.value.first == was.first
         && after.value.count == if was.count < 0xffff_ffff_ffff_ffff then was.count + 1 else was.count
  }

  lemma NotedFields(found: Option<Success>, now: Time)
    ensures CountsOneMore(found, Some(Noted(found, now)), now)
  {
  }

  /** Each address of the list is noted once, and nothing else changes. */
  ghost predicate Counted(before: Entries, after: Entries, addresses: set<Address>, now: Time) {
    forall a :: Lookup(after, a) == if a in addresses then Some(Noted(Lookup(before, a), now)) else Lookup(before, a)
  }

  function Members(s: seq<Address>): set<Address> {
    set a | a in s
  }

  method NoteAddresses(entries: Entries, addresses: seq<Address>, now: Time) returns (r: Entries)
    requires Distinct(addresses)
    ensures Counted(entries, r, Members(addresses), now)
    ensures UniqueKeys(entries) ==> UniqueKeys(r)
  {
    r := entries;
    for i := 0 to |addresses|
      invariant Counted(entries, r, Members(addresses[..i]), now)
      invariant UniqueKeys(entries) ==> UniqueKeys(r)
    {
      var a := addresses[i];
      ghost var was := r;
      var found := Find(r, a);
      if found.Some? {
        var entry := r[found.value].value;
        r := r[found.value := Keyed(a, entry.(count := Increment(entry.count), last := now))];
      } else {
        r := r + [Keyed(a, Success("connection", 1, now, now))];
      }
      assert r == Put(was, a, Noted(Lookup(was, a), now));
      NotedOnce(entries, was, addresses, i, now);
    }
    assert addresses[..|addresses|] == addresses;
  }

  lemma NotedOnce(entries: Entries, was: Entries, addresses: seq<Address>, i: nat, now: Time)
    requires i < |addresses| && Distinct(addresses) && Counted(entries, was, Members(addresses[..i]), now)
    ensures Counted(entries, Put(was, addresses[i], Noted(Lookup(was, addresses[i]), now)), Members(addresses[..i + 1]), now)
    ensures UniqueKeys(was) ==> UniqueKeys(Put(was, addresses[i], Noted(Lookup(was, addresses[i]), now)))
  {
    var a := addresses[i];
    var r := Put(was, a, Noted(Lookup(was, a), now));
    if UniqueKeys(was) {
      PutKeepsUnique(was, a, Noted(Lookup(was, a), now));
    }
    assert addresses[..i + 1] == addresses[..i] + [a];
    assert a !in addresses[..i];
    forall b ensures Lookup(r, b) == if b in Members(addresses[..i + 1]) then Some(Noted(Lookup(entries, b), now)) else Lookup(entries, b) {
      PutThenLookup(was, a, Noted(Lookup(was, a), now), b);
      assert Lookup(was, b) == if b in Members(addresses[..i]) then Some(Noted(Lookup(entries, b), now)) else Lookup(entries, b);
    }
  }

  /** What `record_successful_addresses` makes of the entries. */
  ghost predicate Recorded(before: Cache, after: Cache, p: PeerId, addresses: set<Address>, now: Time) {
    forall q, a :: Entry(after, q, a) == if q == p && a in addresses then Some(Noted(Entry(before, q, a), now)) else Entry(before, q, a)
  }

  /** The peers in order, and the addresses of this one. */
  ghost predicate InOrder(c: Cache, p: PeerId) {
    Sorting.Sorted(KeyLeq, c) && (Lookup(c, p).Some? ==> Sorting.Sorted(KeyLeq, Lookup(c, p).value))
  }

  /**
   * `canSave` tells how the write of the file will end; an error leaves the old cache in use. The cache
   * may hold a peer or an address twice, as a file edited by hand can: the first one is meant.
   */
  method RecordSuccessfulAddresses(c: Cache, p: PeerId, raw: seq<Address>, now: Time, canSave: bool) returns (r: Result<Cache>)
    ensures r.Ok? ==>
              forall q, a ::
                if q == p && a != "" && (exists text :: text in raw && Text.Trim(text) == a)
                then CountsOneMore(Entry(c, q, a), Entry(r.value, q, a), now)
                else Entry(r.value, q, a) == Entry(c, q, a)
    ensures r.Ok? <==> canSave || forall text <- raw :: Text.Trim(text) == ""
    ensures r.Ok? <==> canSave || NormalizedAddresses(raw) == []
    ensures r.Ok? ==> Recorded(c, r.value, p, Members(NormalizedAddresses(raw)), now)
    ensures r.Ok? && NormalizedAddresses(raw) != [] ==> InOrder(r.value, p)
    ensures r.Ok? && Unique(c) ==> Unique(r.value)
    ensures NormalizedAddresses(raw) == [] ==> r == Ok(c)
  {
    var addresses := NormalizedAddresses(raw);
    NothingNormal(raw);
    NormalizedMembers(raw, "");
    if addresses == [] {
      RecordedEntries(c, c, p, raw, now);
      return Ok(c);
    }
    var found := Find(c, p);
    var updated, entries := c, [];
    if found.Some? {
      entries := c[found.value].value;
    } else {
      updated := c + [Keyed(p, [])];
    }
    var noted := NoteAddresses(entries, addresses, now);
    ghost var counted := noted;
    noted := KeyedLists.Sorted(noted);
    updated := updated[if found.Some? then found.value else |c| := Keyed(p, noted)];
    if found.Some? {
      PutAt(c, p, found.value, noted);
    } else {
      PutLast(c, p, noted);
      assert updated == c + [Keyed(p, noted)];
    }
    assert updated == Put(c, p, noted);
    DeviceUpdated(c, p, entries, counted, Members(addresses), now);
    var sorted := KeyedLists.Sorted(updated);
    CacheSorted(c, counted, p, Members(addresses), now);
    if Unique(c) {
      LookedUpIsUnique(c, p);
      StaysUnique(c, counted, p);
    }
    r := if canSave then Ok(sorted) else Err;
    RecordedEntries(c, sorted, p, raw, now);
  }

  lemma NothingNormal(raw: seq<Address>)
    ensures NormalizedAddresses(raw) == [] <==> forall text <- raw :: Text.Trim(text) == ""
  {
    forall a ensures a in NormalizedAddresses(raw) <==> a != "" && exists text :: text in raw && Text.Trim(text) == a {
      NormalizedMembers(raw, a);
    }
    if NormalizedAddresses(raw) == [] {
      forall text | text in raw ensures Text.Trim(text) == "" {
        assert Text.Trim(text) !in NormalizedAddresses(raw);
      }
    } else {
      assert NormalizedAddresses(raw)[0] in NormalizedAddresses(raw);
    }
  }

  lemma RecordedEntries(c: Cache, r: Cache, p: PeerId, raw: seq<Address>, now: Time)
    requires Recorded(c, r, p, Members(NormalizedAddresses(raw)), now)
    ensures forall q, a ::
              if q == p && a != "" && (exists text :: text in raw && Text.Trim(text) == a)
              then CountsOneMore(Entry(c, q, a), Entry(r, q, a), now)
              else Entry(r, q, a) == Entry(c, q, a)
  {
    hide Noted, CountsOneMore, NormalizedAddresses, Text.Trim;
    forall q, a
      ensures if q == p && a != "" && (exists text :: text in raw && Text.Trim(text) == a)
              then CountsOneMore(Entry(c, q, a), Entry(r, q, a), now)
              else Entry(r, q, a) == Entry(c, q, a)
    {
      NormalizedMembers(raw, a);
      NotedFields(Entry(c, q, a), now);
      assert Entry(r, q, a) ==
             if q == p && a in Members(NormalizedAddresses(raw)) then Some(Noted(Entry(c, q, a), now)) else Entry(c, q, a);
    }
  }

  lemma {:induction false} LookedUpIsUnique(c: Cache, p: PeerId)
    requires Unique(c)
    ensures Lookup(c, p).Some? ==> UniqueKeys(Lookup(c, p).value)
  {
    if c != [] {
      assert c[0] in c;
      assert forall d <- c[1..] :: d in c;
      LookedUpIsUnique(c[1..], p);
    }
  }

  lemma {:induction false} PutKeepsParts(c: Cache, p: PeerId, entries: Entries)
    requires (forall d <- c :: UniqueKeys(d.value)) && UniqueKeys(entries)
    ensures forall d <- Put(c, p, entries) :: UniqueKeys(d.value)
  {
    if c != [] {
      assert c[0] in c;
      assert forall d <- c[1..] :: d in c;
      PutKeepsParts(c[1..], p, entries);
    }
  }

  lemma DeviceUpdated(c: Cache, p: PeerId, entries: Entries, counted: Entries, addresses: set<Address>, now: Time)
    requires Counted(entries, counted, addresses, now)
    requires match Lookup(c, p) case None => entries == [] case Some(e) => entries == e
    ensures Recorded(c, Put(c, p, KeyedLists.Sorted(counted)), p, addresses, now)
  {
    var noted := KeyedLists.Sorted(counted);
    var after := Put(c, p, noted);
    forall q, a ensures Entry(after, q, a) ==
                        if q == p && a in addresses then Some(Noted(Entry(c, q, a), now)) else Entry(c, q, a)
    {
      PutThenLookup(c, p, noted, q);
      SortKeepsLookup(counted, a);
      assert Lookup(counted, a) == if a in addresses then Some(Noted(Lookup(entries, a), now)) else Lookup(entries, a);
    }
  }

  lemma CacheSorted(c: Cache, counted: Entries, p: PeerId, addresses: set<Address>, now: Time)
    requires Recorded(c, Put(c, p, KeyedLists.Sorted(counted)), p, addresses, now)
    ensures Recorded(c, KeyedLists.Sorted(Put(c, p, KeyedLists.Sorted(counted))), p, addresses, now)
    ensures InOrder(KeyedLists.Sorted(Put(c, p, KeyedLists.Sorted(counted))), p)
  {
    var updated := Put(c, p, KeyedLists.Sorted(counted));
    var after := KeyedLists.Sorted(updated);
    forall q, a ensures Entry(after, q, a) ==
                        if q == p && a in addresses then Some(Noted(Entry(c, q, a), now)) else Entry(c, q, a)
    {
      SortKeepsLookup(updated, q);
      assert Entry(updated, q, a) == if q == p && a in addresses then Some(Noted(Entry(c, q, a), now)) else Entry(c, q, a);
    }
    SortKeepsLookup(updated, p);
    PutThenLookup(c, p, KeyedLists.Sorted(counted), p);
    SortedIsSorted(updated);
    SortedIsSorted(counted);
  }

  lemma StaysUnique(c: Cache, counted: Entries, p: PeerId)
    requires Unique(c) && UniqueKeys(counted)
    ensures Unique(KeyedLists.Sorted(Put(c, p, KeyedLists.Sorted(counted))))
  {
    var noted := KeyedLists.Sorted(counted);
    SortKeepsUnique(counted);
    PutKeepsUnique(c, p, noted);
    PutKeepsParts(c, p, noted);
    var updated := Put(c, p, noted);
    var after := KeyedLists.Sorted(updated);
    SortKeepsUnique(updated);
    SortPermutes(KeyLeq, updated);
    forall d <- after ensures UniqueKeys(d.value) {
      assert d in multiset(after) && d in multiset(updated);
    }
  }

  // ---------- the sampler ----------

  type Pair = (PeerId, Address)

  /** `direct_address_pairs` of the normalized groups. */
  function Pairs(grouped: map<PeerId, seq<Address>>): set<Pair> {
    set p, a | p in grouped && a in NormalizedAddresses(grouped[p]) :: (p, a)
  }

  /** The new pairs, as lists of addresses by peer. */
  ghost predicate Groups(pairs: set<Pair>, groups: map<PeerId, seq<Address>>) {
    forall p, a :: (p, a) in pairs <==> p in groups && a in groups[p]
  }

  method GroupPairs(pairs: set<Pair>) returns (groups: map<PeerId, seq<Address>>)
    ensures Groups(pairs, groups)
  {
    groups := map[];
    var left := pairs;
    while left != {}
      invariant left <= pairs && Groups(pairs - left, groups)
      decreases |left|
    {
      var pair :| pair in left;
      left := left - {pair};
      var p := pair.0;
      groups := groups[p := (if p in groups then groups[p] else []) + [pair.1]];
    }
    assert pairs - left == pairs;
  }

  /** In counts, one tick: the new pairs count once more, except for the peers whose record cannot be saved. */
  ghost predicate Ticked(before: Cache, after: Cache, pairs: set<Pair>, last: set<Pair>, failing: set<PeerId>) {
    (Unique(before) ==> Unique(after))
    && forall p, a :: Count(after, p, a) ==
         if (p, a) in pairs && (p, a) !in last && p !in failing then Increment(Count(before, p, a)) else Count(before, p, a)
  }

  class Sampler {
    var cache: Cache
    var lastSyncedPairs: set<Pair>

    constructor (cache: Cache)
      ensures this.cache == cache && lastSyncedPairs == {}
    {
      this.cache, lastSyncedPairs := cache, {};
    }

    /** One pass of the loop; `failing` are the peers whose record cannot be saved this time. */
    method Tick(grouped: map<PeerId, seq<Address>>, now: Time, failing: set<PeerId>)
      modifies this
      ensures lastSyncedPairs == Pairs(grouped)
      ensures Ticked(old(cache), cache, Pairs(grouped), old(lastSyncedPairs), failing)
      ensures forall p, a ::
                if p in grouped && a != "" && (exists text :: text in grouped[p] && Text.Trim(text) == a)
                   && (p, a) !in old(lastSyncedPairs) && p !in failing
                then CountsOneMore(Entry(old(cache), p, a), Entry(cache, p, a), now)
                else Entry(cache, p, a) == Entry(old(cache), p, a)
    {
      var currentPairs := Pairs(grouped);
      var risen := currentPairs - lastSyncedPairs;
      var groups := GroupPairs(risen);
      lastSyncedPairs := currentPairs;
      RisenAreNormal(grouped, risen, groups);
      cache := RecordGroups(cache, groups, now, failing, risen);
      RisenRecorded(old(cache), cache, currentPairs, old(lastSyncedPairs), groups, failing, now);
      RisenEntries(old(cache), cache, grouped, old(lastSyncedPairs), groups, failing, now);
    }
  }

  /** The records are saved one peer after another; a failure skips that peer only. */
  method RecordGroups(before: Cache, groups: map<PeerId, seq<Address>>, now: Time, failing: set<PeerId>, ghost risen: set<Pair>)
    returns (current: Cache)
    requires Groups(risen, groups) && AreNormal(groups)
    ensures RecordedFor(before, current, risen, groups.Keys - failing, now)
  {
    current := before;
    var left := groups.Keys;
    assert groups.Keys - left - failing == {};
    while left != {}
      invariant left <= groups.Keys && RecordedFor(before, current, risen, groups.Keys - left - failing, now)
      decreases |left|
    {
      var p :| p in left;
      ghost var was, done := current, groups.Keys - left - failing;
      left := left - {p};
      var r := RecordSuccessfulAddresses(current, p, groups[p], now, p !in failing);
      if r.Ok? {
        current := r.value;
      }
      if p in failing {
        assert groups.Keys - left - failing == done;
      } else {
        assert groups.Keys - left - failing == done + {p};
        OnePeer(before, was, current, risen, groups, p, done, now);
      }
    }
    assert groups.Keys - left - failing == groups.Keys - failing;
  }

  ghost predicate RecordedFor(before: Cache, after: Cache, risen: set<Pair>, peers: set<PeerId>, now: Time) {
    (Unique(before) ==> Unique(after))
    && forall p, a :: Entry(after, p, a) == if (p, a) in risen && p in peers then Some(Noted(Entry(before, p, a), now)) else Entry(before, p, a)
  }

  lemma CountOfEntry(c: Cache, p: PeerId, a: Address)
    ensures Count(c, p, a) == match Entry(c, p, a) case None => 0 case Some(s) => s.count
  {
  }

  /** Recording normalizes once more, to no effect. */
  ghost predicate AreNormal(groups: map<PeerId, seq<Address>>) {
    forall p <- groups :: forall a :: a in NormalizedAddresses(groups[p]) <==> a in groups[p]
  }

  lemma RisenAreNormal(grouped: map<PeerId, seq<Address>>, risen: set<Pair>, groups: map<PeerId, seq<Address>>)
    requires risen <= Pairs(grouped) && Groups(risen, groups)
    ensures AreNormal(groups)
  {
    forall p, a | p in groups && a in groups[p] ensures a != "" && Text.Trim(a) == a {
      assert (p, a) in risen;
      NormalizedMembers(grouped[p], a);
      var raw :| raw in grouped[p] && Text.Trim(raw) == a;
      Text.TrimIsCanonical(raw);
      Text.TrimIsCanonical(a);
    }
    forall p, a | p in groups ensures a in NormalizedAddresses(groups[p]) <==> a in groups[p] {
      NormalizedMembers(groups[p], a);
      if a in groups[p] { assert Text.Trim(a) == a; }
    }
  }

  lemma RisenRecorded(before: Cache, after: Cache, pairs: set<Pair>, last: set<Pair>, groups: map<PeerId, seq<Address>>,
                      failing: set<PeerId>, now: Time)
    requires Groups(pairs - last, groups) && RecordedFor(before, after, pairs - last, groups.Keys - failing, now)
    ensures Ticked(before, after, pairs, last, failing)
  {
    var risen := pairs - last;
    forall p, a ensures Count(after, p, a) ==
      if (p, a) in pairs && (p, a) !in last && p !in failing then Increment(Count(before, p, a)) else Count(before, p, a)
    {
      CountOfEntry(before, p, a);
      CountOfEntry(after, p, a);
      assert (p, a) in risen ==> p in groups;
      assert Entry(after, p, a) ==
             if (p, a) in risen && p in groups.Keys - failing then Some(Noted(Entry(before, p, a), now)) else Entry(before, p, a);
    }
  }

  lemma RisenEntries(before: Cache, after: Cache, grouped: map<PeerId, seq<Address>>, last: set<Pair>, groups: map<PeerId, seq<Address>>,
                     failing: set<PeerId>, now: Time)
    requires Groups(Pairs(grouped) - last, groups) && RecordedFor(before, after, Pairs(grouped) - last, groups.Keys - failing, now)
    ensures forall p, a ::
              if p in grouped && a != "" && (exists text :: text in grouped[p] && Text.Trim(text) == a)
                 && (p, a) !in last && p !in failing
              then CountsOneMore(Entry(before, p, a), Entry(after, p, a), now)
              else Entry(after, p, a) == Entry(before, p, a)
  {
    hide Noted, CountsOneMore, NormalizedAddresses, Text.Trim;
    forall p, a
      ensures if p in grouped && a != "" && (exists text :: text in grouped[p] && Text.Trim(text) == a)
                 && (p, a) !in last && p !in failing
              then CountsOneMore(Entry(before, p, a), Entry(after, p, a), now)
              else Entry(after, p, a) == Entry(before, p, a)
    {
      NotedFields(Entry(before, p, a), now);
      if p in grouped {
        NormalizedMembers(grouped[p], a);
      }
      assert (p, a) in Pairs(grouped) - last ==> p in groups;
      assert Entry(after, p, a) ==
             if (p, a) in Pairs(grouped) - last && p in groups.Keys - failing then Some(Noted(Entry(before, p, a), now)) else Entry(before, p, a);
    }
  }

  lemma OnePeer(before: Cache, was: Cache, after: Cache, risen: set<Pair>, groups: map<PeerId, seq<Address>>, p: PeerId,
                peers: set<PeerId>, now: Time)
    requires RecordedFor(before, was, risen, peers, now) && p in groups && p !in peers && Groups(risen, groups) && AreNormal(groups)
    requires Recorded(was, after, p, Members(NormalizedAddresses(groups[p])), now) && (Unique(was) ==> Unique(after))
    ensures RecordedFor(before, after, risen, peers + {p}, now)
  {
    hide Noted, NormalizedAddresses, Entry;
    forall q, a ensures Entry(after, q, a) ==
                        if (q, a) in risen && q in peers + {p} then Some(Noted(Entry(before, q, a), now)) else Entry(before, q, a)
    {
      assert Entry(was, q, a) == if (q, a) in risen && q in peers then Some(Noted(Entry(before, q, a), now)) else Entry(before, q, a);
      assert Entry(after, q, a) ==
             if q == p && a in Members(NormalizedAddresses(groups[p])) then Some(Noted(Entry(was, q, a), now)) else Entry(was, q, a);
      assert a in Members(NormalizedAddresses(groups[p])) <==> a in groups[p];
      assert (p, a) in risen <==> a in groups[p];
    }
  }

  // ---------- whole histories ----------

  function Last(samples: seq<set<Pair>>, k: nat): set<Pair>
    requires k <= |samples|
  {
    if k == 0 then {} else samples[k - 1]
  }

  /** Pair `(p, a)` is there at tick `k` and was not at the tick before. */
  predicate Rises(samples: seq<set<Pair>>, k: nat, p: PeerId, a: Address)
    requires k < |samples|
  {
    (p, a) in samples[k] && (p, a) !in Last(samples, k)
  }

  /** How often the pair rose in the first `n` ticks. */
  function Edges(samples: seq<set<Pair>>, n: nat, p: PeerId, a: Address): nat
    requires n <= |samples|
  {
    if n == 0 then 0 else Edges(samples, n - 1, p, a) + if Rises(samples, n - 1, p, a) then 1 else 0
  }

  /** How often it rose at a tick whose record of the peer was saved. */
  function SavedEdges(samples: seq<set<Pair>>, failing: seq<set<PeerId>>, n: nat, p: PeerId, a: Address): nat
    requires n <= |samples| == |failing|
  {
    if n == 0 then 0
    else SavedEdges(samples, failing, n - 1, p, a) + if Rises(samples, n - 1, p, a) && p !in failing[n - 1] then 1 else 0
  }

  ghost predicate IsHistory(caches: seq<Cache>, samples: seq<set<Pair>>, failing: seq<set<PeerId>>) {
    && |samples| == |failing| && |caches| == |samples| + 1
    && forall k :: 0 <= k < |samples| ==> Ticked(caches[k], caches[k + 1], samples[k], Last(samples, k), failing[k])
  }

  function Saturated(n: nat): U64 {
    if n > U64_MAX then U64_MAX else n
  }

  /** In every history, each count is the initial one plus the saved rises, saturating; unique keys stay unique. */
  lemma {:induction false} CountsAreSavedEdges(caches: seq<Cache>, samples: seq<set<Pair>>, failing: seq<set<PeerId>>, n: nat, p: PeerId, a: Address)
    requires IsHistory(caches, samples, failing) && n <= |samples|
    ensures Unique(caches[0]) ==> Unique(caches[n])
    ensures Count(caches[n], p, a) == Saturated(Count(caches[0], p, a) + SavedEdges(samples, failing, n, p, a))
  {
    if n > 0 {
      CountsAreSavedEdges(caches, samples, failing, n - 1, p, a);
      var k := n - 1;
      assert Ticked(caches[k], caches[k + 1], samples[k], Last(samples, k), failing[k]);
    }
  }

  /** The saved rises are all the rises exactly when no save failed at a rise; a lost one never comes back. */
  lemma {:induction false} SavedEdgesAreEdges(samples: seq<set<Pair>>, failing: seq<set<PeerId>>, n: nat, p: PeerId, a: Address)
    requires n <= |samples| == |failing|
    ensures SavedEdges(samples, failing, n, p, a) <= Edges(samples, n, p, a)
    ensures SavedEdges(samples, failing, n, p, a) == Edges(samples, n, p, a) <==>
            forall k :: 0 <= k < n && Rises(samples, k, p, a) ==> p !in failing[k]
  {
    if n > 0 {
      SavedEdgesAreEdges(samples, failing, n - 1, p, a);
    }
  }
}
