/** The legacy local access file becomes the list of local preferences: `local_preferences.rs` of the migration. */
module MigrationAccess {
  import opened LocalPreferences
  import opened Sorting
  import opened Widths
  import opened Wrappers
  import Text

  /** A record of either file; the source of the port is any text here. */
  datatype Preference = Preference(id: Identity, host: string, port: U16, source: string)

  predicate PreferenceLeq(a: Preference, b: Preference) {
    if a.id.peer != b.id.peer then Text.Leq(a.id.peer, b.id.peer)
    else if a.id.service != b.id.service then Text.Leq(a.id.service, b.id.service)
    else Text.Leq(a.id.entry, b.id.entry)
  }

  function RecordOf(p: Preference): Record {
    Record(p.id, "", 0, Auto)
  }

  /** It is the order of the preference file. */
  lemma PreferenceOrder()
    ensures TotalPreorder(PreferenceLeq)
  {
    RecordOrder();
    forall a, b ensures PreferenceLeq(a, b) || PreferenceLeq(b, a) {
      assert RecordLeq(RecordOf(a), RecordOf(b)) || RecordLeq(RecordOf(b), RecordOf(a));
      SameOrder(a, b);
      SameOrder(b, a);
    }
    forall a, b, c | PreferenceLeq(a, b) && PreferenceLeq(b, c) ensures PreferenceLeq(a, c) {
      SameOrder(a, b);
      SameOrder(b, c);
      SameOrder(a, c);
    }
  }

  lemma SameOrder(a: Preference, b: Preference)
    ensures PreferenceLeq(a, b) <==> RecordLeq(RecordOf(a), RecordOf(b))
  {
    Text.LeqReflexive(a.id.entry);
  }

  /** The first record of an entry. */
  function Find(records: seq<Preference>, id: Identity): Option<Preference> {
    First(records, (p: Preference) => p.id == id)
  }

  /** The loop of the conversion: a record is added unless its entry has one. */
  function Filled(records: seq<Preference>, legacy: seq<Preference>): seq<Preference> {
    if legacy == [] then records
    else
      var so := Filled(records, legacy[..|legacy| - 1]);
      var last := legacy[|legacy| - 1];
      if Has(so, last.id) then so else so + [last]
  }

  predicate Has(records: seq<Preference>, id: Identity) {
    exists p <- records :: p.id == id
  }

  method FillPreferences(existing: seq<Preference>, legacy: seq<Preference>) returns (r: seq<Preference>)
    ensures r == Sort(PreferenceLeq, Filled(existing, legacy))
  {
    var preferences := existing;
    for i := 0 to |legacy|
      invariant preferences == Filled(existing, legacy[..i])
    {
      assert legacy[..i + 1][..i] == legacy[..i] && legacy[..i + 1][i] == legacy[i];
      if !exists p <- preferences :: p.id == legacy[i].id {
        preferences := preferences + [legacy[i]];
      }
    }
    assert legacy[..|legacy|] == legacy;
    r := Sort(PreferenceLeq, preferences);
  }

  lemma {:induction false} FirstAppends(a: seq<Preference>, b: seq<Preference>, p: Preference -> bool)
    ensures First(a + b, p) == if First(a, p).Some? then First(a, p) else First(b, p)
  {
    if a == [] {
      assert a + b == b;
    } else {
      FirstAppends(a[1..], b, p);
      assert (a + b)[1..] == a[1..] + b;
    }
  }

  lemma {:induction false} FindIsPresence(records: seq<Preference>, id: Identity)
    ensures Find(records, id).Some? <==> Has(records, id)
  {
    if records != [] {
      FindIsPresence(records[1..], id);
      assert records == [records[0]] + records[1..];
      assert records[0] in records;
    }
  }

  /**
   * What the conversion makes of the two files: a saved record wins over a legacy one, of two legacy
   * records the first counts, no saved record is lost, and the list is in the order of the file.
   */
  ghost predicate PreferencesMerged(existing: seq<Preference>, legacy: seq<Preference>, result: seq<Preference>) {
    Sorted(PreferenceLeq, result) && multiset(existing) <= multiset(result)
    && (forall id :: Find(result, id) == if Find(existing, id).Some? then Find(existing, id) else Find(legacy, id))
    && forall p <- result :: p in existing || (p in legacy && Find(existing, p.id).None?)
  }

  lemma {:induction false} FilledFinds(existing: seq<Preference>, legacy: seq<Preference>, id: Identity)
    ensures Find(Filled(existing, legacy), id) == if Find(existing, id).Some? then Find(existing, id) else Find(legacy, id)
    ensures existing <= Filled(existing, legacy)
    decreases |legacy|
  {
    if legacy != [] {
      var init, last := legacy[..|legacy| - 1], legacy[|legacy| - 1];
      var so := Filled(existing, init);
      FilledFinds(existing, init, id);
      FilledFinds(existing, init, last.id);
      assert legacy == init + [last];
      FirstAppends(init, [last], (p: Preference) => p.id == id);
      FirstAppends(so, [last], (p: Preference) => p.id == id);
      assert [last][1..] == [];
      FindIsPresence(so, last.id);
    }
  }

  lemma {:induction false} FilledMembers(existing: seq<Preference>, legacy: seq<Preference>)
    ensures forall p <- Filled(existing, legacy) :: p in existing || (p in legacy && Find(existing, p.id).None?)
    decreases |legacy|
  {
    if legacy != [] {
      var init, last := legacy[..|legacy| - 1], legacy[|legacy| - 1];
      FilledMembers(existing, init);
      assert legacy == init + [last];
      FilledFinds(existing, init, last.id);
      FindIsPresence(Filled(existing, init), last.id);
    }
  }

  lemma FilledIsMerged(existing: seq<Preference>, legacy: seq<Preference>)
    ensures PreferencesMerged(existing, legacy, Sort(PreferenceLeq, Filled(existing, legacy)))
  {
    var filled := Filled(existing, legacy);
    var result := Sort(PreferenceLeq, filled);
    PreferenceOrder();
    SortSorts(PreferenceLeq, filled);
    SortPermutes(PreferenceLeq, filled);
    FilledMembers(existing, legacy);
    forall p <- result ensures p in filled {
      assert p in multiset(result);
    }
    forall id ensures Find(result, id) == if Find(existing, id).Some? then Find(existing, id) else Find(legacy, id) {
      FilledFinds(existing, legacy, id);
      Text.LeqReflexive(id.entry);
      SortFirst(PreferenceLeq, filled, (p: Preference) => p.id == id);
    }
    FilledFinds(existing, legacy, Identity("", "", ""));
    assert filled == existing + filled[|existing|..];
  }
}
