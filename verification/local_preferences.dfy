/** The saved list of local service preferences: `cache/local_preferences.json`. */
module LocalPreferences {
  import opened Wrappers
  import opened Widths
  import opened Sorting
  import Text

  datatype Identity = Identity(peer: string, service: string, entry: string)

  datatype PortSource = Auto | User

  datatype Record = Record(id: Identity, host: string, port: U16, source: PortSource)

  predicate NonEmpty(value: string) {
    Text.Trim(value) != ""
  }

  predicate IsValid(r: Record) {
    NonEmpty(r.id.peer) && NonEmpty(r.id.service) && NonEmpty(r.id.entry) && NonEmpty(r.host) && r.port != 0
  }

  /** The order of `sort_records`. */
  predicate RecordLeq(a: Record, b: Record) {
    if a.id.peer != b.id.peer then Text.Leq(a.id.peer, b.id.peer)
    else if a.id.service != b.id.service then Text.Leq(a.id.service, b.id.service)
    else if a.id.entry != b.id.entry then Text.Leq(a.id.entry, b.id.entry)
    else if a.host != b.host then Text.Leq(a.host, b.host)
    else a.port <= b.port
  }

  lemma RecordOrder()
    ensures TotalPreorder(RecordLeq)
  {
    forall a, b ensures RecordLeq(a, b) || RecordLeq(b, a) {
      Text.LeqTotal(a.id.peer, b.id.peer);
      Text.LeqTotal(a.id.service, b.id.service);
      Text.LeqTotal(a.id.entry, b.id.entry);
      Text.LeqTotal(a.host, b.host);
    }
    forall a, b, c | RecordLeq(a, b) && RecordLeq(b, c) ensures RecordLeq(a, c) {
      LeqChain(a.id.peer, b.id.peer, c.id.peer);
      LeqChain(a.id.service, b.id.service, c.id.service);
      LeqChain(a.id.entry, b.id.entry, c.id.entry);
      LeqChain(a.host, b.host, c.host);
    }
  }

  lemma LeqChain(a: string, b: string, c: string)
    ensures Text.Leq(a, b) && Text.Leq(b, c) ==> Text.Leq(a, c)
    ensures Text.Leq(a, b) && Text.Leq(b, a) ==> a == b
  {
    if Text.Leq(a, b) && Text.Leq(b, c) { Text.LeqTransitive(a, b, c); }
    if Text.Leq(a, b) && Text.Leq(b, a) { Text.LeqAntisymmetric(a, b); }
  }

  /** `find_record`: the first record with the identity. */
  function Find(records: seq<Record>, id: Identity): Option<Record> {
    if records == [] then None
    else if records[0].id == id then Some(records[0])
    else Find(records[1..], id)
  }

  predicate PortUsedByOther(records: seq<Record>, r: Record) {
    exists e <- records :: e.host == r.host && e.port == r.port && e.id != r.id
  }

  predicate CanUpsert(records: seq<Record>, r: Record) {
    IsValid(r) && !PortUsedByOther(records, r)
  }

  /** Overwrites the first record of the identity, or appends. */
  function Overwrite(records: seq<Record>, r: Record): seq<Record> {
    if records == [] then [r]
    else if records[0].id == r.id then [r] + records[1..]
    else [records[0]] + Overwrite(records[1..], r)
  }

  function Upsert(records: seq<Record>, r: Record): seq<Record> {
    Sort(RecordLeq, Overwrite(records, r))
  }

  function Drop(records: seq<Record>, gone: Record -> bool): seq<Record> {
    if records == [] then []
    else (if gone(records[0]) then [] else [records[0]]) + Drop(records[1..], gone)
  }

  function WithoutService(records: seq<Record>, peer: string, service: string): seq<Record> {
    Drop(records, (r: Record) => r.id.peer == peer && r.id.service == service)
  }

  function WithoutDevice(records: seq<Record>, peer: string): seq<Record> {
    Drop(records, (r: Record) => r.id.peer == peer)
  }

  // ---------- the operations, as the source runs them ----------

  /** The services of the device that have a record, as the detached marks name them. */
  function ServicesOf(records: seq<Record>, peer: string): set<(string, string)> {
    set r <- records | r.id.peer == peer :: (peer, r.id.service)
  }

  method FindRecord(records: seq<Record>, id: Identity) returns (r: Option<Record>)
    ensures r == Find(records, id)
  {
    var i := 0;
    while i < |records|
      invariant 0 <= i <= |records|
      invariant Find(records, id) == Find(records[i..], id)
    {
      if records[i].id == id {
        return Some(records[i]);
      }
      i := i + 1;
    }
    return None;
  }

  /** The first record of the identity is overwritten in place; without one the record goes last. */
  lemma {:induction false} OverwriteAt(records: seq<Record>, r: Record, i: nat)
    requires i <= |records| && (forall k :: 0 <= k < i ==> records[k].id != r.id)
    requires i == |records| || records[i].id == r.id
    ensures Overwrite(records, r) == if i < |records| then records[i := r] else records + [r]
  {
    if i > 0 {
      OverwriteAt(records[1..], r, i - 1);
      assert records == [records[0]] + records[1..];
    }
  }

  /** Ok exactly when the record is valid and its port free; the result is the sorted overwrite. */
  method WithUpsertedRecord(records: seq<Record>, r: Record) returns (result: Result<seq<Record>>)
    ensures result == if CanUpsert(records, r) then Ok(Upsert(records, r)) else Err
  {
    if !IsValid(r) {
      return Err;
    }
    var i := 0;
    while i < |records|
      invariant 0 <= i <= |records|
      invariant !PortUsedByOther(records[..i], r)
    {
      if records[i].host == r.host && records[i].port == r.port && records[i].id != r.id {
        return Err;
      }
      i := i + 1;
    }
    assert !PortUsedByOther(records, r);
    var updated := records;
    i := 0;
    while i < |updated| && updated[i].id != r.id
      invariant 0 <= i <= |updated|
      invariant forall k :: 0 <= k < i ==> updated[k].id != r.id
    {
      i := i + 1;
    }
    OverwriteAt(records, r, i);
    if i < |updated| {
      updated := updated[i := r];
    } else {
      updated := updated + [r];
    }
    return Ok(Sort(RecordLeq, updated));
  }

  // ---------- well-formed lists ----------

  predicate UniqueIdentities(records: seq<Record>) {
    (forall a <- records :: multiset(records)[a] == 1)
    && (forall a <- records, b <- records :: a.id == b.id ==> a == b)
  }

  predicate UniquePorts(records: seq<Record>) {
    forall a <- records, b <- records :: a.host == b.host && a.port == b.port ==> a.id == b.id
  }

  /** What every list written by this program is. */
  ghost predicate WellFormed(records: seq<Record>) {
    UniqueIdentities(records) && UniquePorts(records) && (forall r <- records :: IsValid(r))
    && Sorted(RecordLeq, records)
  }

  lemma TwicePresent(records: seq<Record>, i: nat, j: nat)
    requires i < j < |records| && records[i] == records[j]
    ensures multiset(records)[records[i]] >= 2
  {
    assert records == records[..j] + [records[j]] + records[j + 1..];
    assert records[i] in records[..j];
  }

  /** What that says, field by field: no identity and no port twice, nothing blank, by peer, service and entry. */
  lemma WellFormedFields(records: seq<Record>)
    requires WellFormed(records)
    ensures forall i, j :: 0 <= i < j < |records| ==>
              records[i].id != records[j].id && !(records[i].host == records[j].host && records[i].port == records[j].port)
    ensures forall r <- records ::
              Text.Trim(r.id.peer) != "" && Text.Trim(r.id.service) != "" && Text.Trim(r.id.entry) != "" && Text.Trim(r.host) != "" && r.port > 0
    ensures forall i, j :: 0 <= i < j < |records| ==>
              var a, b := records[i].id, records[j].id;
              Text.Leq(a.peer, b.peer)
              && (a.peer == b.peer ==> Text.Leq(a.service, b.service) && (a.service == b.service ==> Text.Leq(a.entry, b.entry)))
  {
    hide Text.Trim, Text.Leq;
    forall i, j | 0 <= i < j < |records|
      ensures records[i].id != records[j].id && !(records[i].host == records[j].host && records[i].port == records[j].port)
    {
      if records[i].id == records[j].id {
        TwicePresent(records, i, j);
      }
    }
    forall i, j | 0 <= i < j < |records|
      ensures var a, b := records[i].id, records[j].id;
              Text.Leq(a.peer, b.peer)
              && (a.peer == b.peer ==> Text.Leq(a.service, b.service) && (a.service == b.service ==> Text.Leq(a.entry, b.entry)))
    {
      assert RecordLeq(records[i], records[j]);
      OrderFields(records[i], records[j]);
    }
  }

  lemma OrderFields(r: Record, s: Record)
    requires RecordLeq(r, s)
    ensures Text.Leq(r.id.peer, s.id.peer)
    ensures r.id.peer == s.id.peer ==>
              Text.Leq(r.id.service, s.id.service) && (r.id.service == s.id.service ==> Text.Leq(r.id.entry, s.id.entry))
  {
    Text.LeqReflexive(r.id.peer);
    Text.LeqReflexive(r.id.service);
    Text.LeqReflexive(r.id.entry);
  }

  lemma {:induction false} FindIsMember(records: seq<Record>, id: Identity)
    ensures Find(records, id).Some? ==> Find(records, id).value in records && Find(records, id).value.id == id
    ensures Find(records, id).None? ==> forall r <- records :: r.id != id
  {
    if records != [] && records[0].id != id {
      FindIsMember(records[1..], id);
      assert forall r <- records :: r == records[0] || r in records[1..];
    }
  }

  /** In a list without duplicates, finding is membership. */
  lemma FindUnique(records: seq<Record>, r: Record)
    requires UniqueIdentities(records)
    ensures Find(records, r.id) == Some(r) <==> r in records
  {
    FindIsMember(records, r.id);
  }

  lemma {:induction false} OverwriteCounts(records: seq<Record>, r: Record)
    ensures Find(records, r.id).None? ==> multiset(Overwrite(records, r)) == multiset(records) + multiset{r}
    ensures Find(records, r.id).Some? ==>
              multiset(Overwrite(records, r)) == multiset(records) - multiset{Find(records, r.id).value} + multiset{r}
  {
    if records != [] {
      assert records == [records[0]] + records[1..];
      if records[0].id != r.id {
        OverwriteCounts(records[1..], r);
        FindIsMember(records[1..], r.id);
      }
    }
  }

  /** After an upsert: the new record, and every record of another identity, each once. */
  lemma UpsertMembers(records: seq<Record>, r: Record)
    requires UniqueIdentities(records)
    ensures UniqueIdentities(Upsert(records, r))
    ensures forall x :: x in Upsert(records, r) <==> x == r || (x in records && x.id != r.id)
  {
    var after := Upsert(records, r);
    forall x ensures x in after <==> x == r || (x in records && x.id != r.id)
      ensures x in after ==> multiset(after)[x] == 1
    {
      UpsertCount(records, r, x);
    }
  }

  lemma UpsertCount(records: seq<Record>, r: Record, x: Record)
    requires UniqueIdentities(records)
    ensures multiset(Upsert(records, r))[x] == if x == r || (x in records && x.id != r.id) then 1 else 0
    ensures x in Upsert(records, r) <==> x == r || (x in records && x.id != r.id)
  {
    var after := Upsert(records, r);
    SortPermutes(RecordLeq, Overwrite(records, r));
    OverwriteCounts(records, r);
    FindIsMember(records, r.id);
    assert x in after <==> x in multiset(after);
    assert x in records <==> x in multiset(records);
    if Find(records, r.id).Some? {
      assert multiset(records)[Find(records, r.id).value] == 1;
    }
  }

  lemma UpsertKeepsWellFormed(records: seq<Record>, r: Record)
    requires WellFormed(records) && CanUpsert(records, r)
    ensures WellFormed(Upsert(records, r))
  {
    UpsertMembers(records, r);
    RecordOrder();
    SortSorts(RecordLeq, Overwrite(records, r));
  }

  /** Upsert then find: the new record under its identity, the old answer under every other. */
  lemma UpsertThenFind(records: seq<Record>, r: Record, id: Identity)
    requires UniqueIdentities(records)
    ensures Find(Upsert(records, r), id) == if id == r.id then Some(r) else Find(records, id)
  {
    var after := Upsert(records, r);
    UpsertMembers(records, r);
    FindIsMember(records, id);
    FindIsMember(after, id);
    if id == r.id {
      FindUnique(after, r);
    } else if Find(records, id).Some? {
      FindUnique(after, Find(records, id).value);
    }
  }

  lemma {:induction false} DropCounts(records: seq<Record>, gone: Record -> bool, x: Record)
    ensures multiset(Drop(records, gone))[x] == if gone(x) then 0 else multiset(records)[x]
  {
    if records != [] {
      DropCounts(records[1..], gone, x);
      assert records == [records[0]] + records[1..];
    }
  }

  lemma DropMembers(records: seq<Record>, gone: Record -> bool)
    ensures forall x :: x in Drop(records, gone) <==> x in records && !gone(x)
    ensures forall x <- Drop(records, gone) :: multiset(Drop(records, gone))[x] == multiset(records)[x]
  {
    forall x ensures x in Drop(records, gone) <==> x in records && !gone(x)
      ensures x in Drop(records, gone) ==> multiset(Drop(records, gone))[x] == multiset(records)[x]
    {
      DropCounts(records, gone, x);
      assert x in Drop(records, gone) <==> x in multiset(Drop(records, gone));
      assert x in records <==> x in multiset(records);
    }
  }

  lemma {:induction false} DropKeepsOrder(records: seq<Record>, gone: Record -> bool)
    requires Sorted(RecordLeq, records)
    ensures Sorted(RecordLeq, Drop(records, gone))
  {
    if records != [] {
      DropKeepsOrder(records[1..], gone);
      DropMembers(records[1..], gone);
      var rest := Drop(records[1..], gone);
      assert forall j :: 0 <= j < |rest| ==> rest[j] in records[1..];
    }
  }

  lemma DropKeepsWellFormed(records: seq<Record>, gone: Record -> bool)
    requires WellFormed(records)
    ensures WellFormed(Drop(records, gone))
  {
    DropMembers(records, gone);
    DropKeepsOrder(records, gone);
  }

  /** Removing a service: no record of it is left, and no other record is touched. */
  lemma WithoutServiceFind(records: seq<Record>, peer: string, service: string, id: Identity)
    ensures Find(WithoutService(records, peer, service), id)
         == if id.peer == peer && id.service == service then None else Find(records, id)
  {
    DropFind(records, (r: Record) => r.id.peer == peer && r.id.service == service, id,
             id.peer == peer && id.service == service);
  }

  lemma WithoutDeviceFind(records: seq<Record>, peer: string, id: Identity)
    ensures Find(WithoutDevice(records, peer), id) == if id.peer == peer then None else Find(records, id)
  {
    DropFind(records, (r: Record) => r.id.peer == peer, id, id.peer == peer);
  }

  lemma {:induction false} DropFind(records: seq<Record>, gone: Record -> bool, id: Identity, dropped: bool)
    requires forall r: Record :: r.id == id ==> gone(r) == dropped
    ensures Find(Drop(records, gone), id) == if dropped then None else Find(records, id)
  {
    if records != [] {
      DropFind(records[1..], gone, id, dropped);
      var rest := Drop(records[1..], gone);
      assert Drop(records, gone) == if gone(records[0]) then rest else [records[0]] + rest;
    }
  }

  // ---------- runs ----------

  datatype Edit = UpsertRecord(r: Record) | RemoveService(peer: string, service: string) | RemoveDevice(peer: string)

  /** One edit; an upsert that is refused changes nothing. */
  function Apply(records: seq<Record>, e: Edit): seq<Record> {
    match e
    case UpsertRecord(r) => if CanUpsert(records, r) then Upsert(records, r) else records
    case RemoveService(peer, service) => WithoutService(records, peer, service)
    case RemoveDevice(peer) => WithoutDevice(records, peer)
  }

  function Run(records: seq<Record>, edits: seq<Edit>): seq<Record>
    decreases |edits|
  {
    if edits == [] then records else Run(Apply(records, edits[0]), edits[1..])
  }

  lemma {:induction false} EveryRunIsWellFormed(records: seq<Record>, edits: seq<Edit>)
    requires WellFormed(records)
    ensures WellFormed(Run(records, edits))
    decreases |edits|
  {
    if edits != [] {
      match edits[0] {
        case UpsertRecord(r) =>
          if CanUpsert(records, r) { UpsertKeepsWellFormed(records, r); }
        case RemoveService(peer, service) =>
          DropKeepsWellFormed(records, (r: Record) => r.id.peer == peer && r.id.service == service);
        case RemoveDevice(peer) =>
          DropKeepsWellFormed(records, (r: Record) => r.id.peer == peer);
      }
      EveryRunIsWellFormed(Apply(records, edits[0]), edits[1..]);
    }
  }

  /** The list is a function of what it holds: two well-formed lists with the same records are equal. */
  lemma {:induction false} WellFormedIsCanonical(a: seq<Record>, b: seq<Record>)
    requires WellFormed(a) && WellFormed(b) && multiset(a) == multiset(b)
    ensures a == b
  {
    assert |a| == |multiset(a)| && |b| == |multiset(b)|;
    if a != [] {
      SameFirst(a, b);
      TailCounts(a);
      TailCounts(b);
      TailWellFormed(a);
      TailWellFormed(b);
      WellFormedIsCanonical(a[1..], b[1..]);
    }
  }

  lemma TailCounts(a: seq<Record>)
    requires a != []
    ensures multiset(a[1..]) == multiset(a) - multiset{a[0]}
    ensures a == [a[0]] + a[1..]
  {
    assert a == [a[0]] + a[1..];
  }

  lemma SameFirst(a: seq<Record>, b: seq<Record>)
    requires WellFormed(a) && WellFormed(b) && multiset(a) == multiset(b) && a != [] && b != []
    ensures a[0] == b[0]
  {
    assert a[0] in multiset(b) && b[0] in multiset(a);
    LeastFirst(b, a[0]);
    LeastFirst(a, b[0]);
    LeqBothWays(a[0], b[0]);
  }

  lemma LeastFirst(a: seq<Record>, r: Record)
    requires Sorted(RecordLeq, a) && r in a
    ensures RecordLeq(a[0], r)
  {
    var i :| 0 <= i < |a| && a[i] == r;
    ReflexiveRecord(r);
    assert i == 0 || RecordLeq(a[0], a[i]);
  }

  lemma ReflexiveRecord(a: Record)
    ensures RecordLeq(a, a)
  {
  }

  lemma LeqBothWays(a: Record, b: Record)
    requires RecordLeq(a, b) && RecordLeq(b, a)
    ensures a.id == b.id
  {
    LeqChain(a.id.peer, b.id.peer, a.id.peer);
    LeqChain(a.id.service, b.id.service, a.id.service);
    LeqChain(a.id.entry, b.id.entry, a.id.entry);
  }

  lemma TailWellFormed(a: seq<Record>)
    requires WellFormed(a) && a != []
    ensures WellFormed(a[1..])
  {
    TailUnique(a);
    assert forall x <- a[1..] :: x in a;
  }

  lemma TailUnique(a: seq<Record>)
    requires UniqueIdentities(a) && a != []
    ensures UniqueIdentities(a[1..])
  {
    assert a == [a[0]] + a[1..];
    forall x | x in a[1..] ensures multiset(a[1..])[x] == 1 {
      assert x in a;
      assert multiset(a)[x] == multiset([a[0]])[x] + multiset(a[1..])[x];
      assert x in multiset(a[1..]);
    }
    assert forall x <- a[1..] :: x in a;
  }
}
