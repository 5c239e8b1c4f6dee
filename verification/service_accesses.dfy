/** `ServiceAccesses`, one call at a time: what each operation leaves when no detach runs beside it. */
module ServiceAccesses {
  import opened Wrappers
  import opened Widths
  import opened LocalPreferences
  import opened Forwarding
  import opened AccessPlan
  import opened AccessSafety
  import Sorting
  import Text

  datatype DeviceService = DeviceService(name: string, endpoints: seq<Endpoint>)

  datatype AccessEndpoint = AccessEndpoint(name: string, protocol: string, host: string, port: U16)

  datatype ServiceAccess = ServiceAccess(peer: string, service: string, endpoints: seq<AccessEndpoint>)

  /** The loop state of `attach` after one endpoint. */
  datatype Turn = Turn(record: Record, prefs: seq<Record>, active: Listing, reserved: set<U16>)

  predicate NameLeq(a: AccessEndpoint, b: AccessEndpoint) {
    Text.Leq(a.name, b.name)
  }

  /** The endpoints an entry filter selects, in order. */
  function Selected(endpoints: seq<Endpoint>, entry: Option<string>): seq<Endpoint> {
    if endpoints == [] then []
    else (if entry.None? || endpoints[0].name == entry.value then [endpoints[0]] else []) + Selected(endpoints[1..], entry)
  }

  /** The endpoint is the one that is named, or none is. */
  predicate IsNamed(e: Endpoint, entry: Option<string>) {
    match entry
    case None => true
    case Some(name) => name == e.name
  }

  /** The places, from `i` on, of the endpoints that are named. */
  function PlacesFrom(endpoints: seq<Endpoint>, entry: Option<string>, i: nat): (at: seq<nat>)
    requires i <= |endpoints|
    ensures forall k :: 0 <= k < |at| ==> i <= at[k] < |endpoints|
    decreases |endpoints| - i
  {
    if i == |endpoints| then []
    else (if IsNamed(endpoints[i], entry) then [i] else []) + PlacesFrom(endpoints, entry, i + 1)
  }

  lemma {:induction false} PlacesMembers(endpoints: seq<Endpoint>, entry: Option<string>, i: nat, k: nat)
    requires i <= |endpoints|
    ensures k in PlacesFrom(endpoints, entry, i) <==> i <= k < |endpoints| && IsNamed(endpoints[k], entry)
    decreases |endpoints| - i
  {
    hide IsNamed;
    if i < |endpoints| {
      PlacesMembers(endpoints, entry, i + 1, k);
    }
  }

  lemma {:induction false} PlacesIncrease(endpoints: seq<Endpoint>, entry: Option<string>, i: nat)
    requires i <= |endpoints|
    ensures forall j, k :: 0 <= j < k < |PlacesFrom(endpoints, entry, i)| ==>
              PlacesFrom(endpoints, entry, i)[j] < PlacesFrom(endpoints, entry, i)[k]
    decreases |endpoints| - i
  {
    hide IsNamed;
    if i < |endpoints| {
      PlacesIncrease(endpoints, entry, i + 1);
    }
  }

  /** The endpoints at these places. */
  function Taken(endpoints: seq<Endpoint>, at: seq<nat>): seq<Endpoint>
    requires forall j :: 0 <= j < |at| ==> at[j] < |endpoints|
  {
    seq(|at|, j requires 0 <= j < |at| => endpoints[at[j]])
  }

  lemma TakenAt(endpoints: seq<Endpoint>, at: seq<nat>)
    requires forall j :: 0 <= j < |at| ==> at[j] < |endpoints|
    ensures |Taken(endpoints, at)| == |at| && forall j :: 0 <= j < |at| ==> Taken(endpoints, at)[j] == endpoints[at[j]]
  {
  }

  lemma TakenOneMore(endpoints: seq<Endpoint>, i: nat, rest: seq<nat>)
    requires i < |endpoints| && forall j :: 0 <= j < |rest| ==> rest[j] < |endpoints|
    ensures Taken(endpoints, [i] + rest) == [endpoints[i]] + Taken(endpoints, rest)
  {
  }

  /** What is selected are the endpoints at the places of those that are named. */
  lemma {:induction false} SelectedIsTaken(endpoints: seq<Endpoint>, entry: Option<string>, i: nat)
    requires i <= |endpoints|
    ensures Selected(endpoints[i..], entry) == Taken(endpoints, PlacesFrom(endpoints, entry, i))
    decreases |endpoints| - i
  {
    if i < |endpoints| {
      var rest := PlacesFrom(endpoints, entry, i + 1);
      assert endpoints[i..][1..] == endpoints[i + 1..] && endpoints[i..][0] == endpoints[i];
      SelectedIsTaken(endpoints, entry, i + 1);
      TakenOneMore(endpoints, i, rest);
      assert [] + rest == rest;
    }
  }

  lemma WhatIsSelected(endpoints: seq<Endpoint>, entry: Option<string>) returns (at: seq<nat>)
    ensures forall i: nat :: i in at <==> i < |endpoints| && (entry.None? || endpoints[i].name == entry.value)
    ensures forall j, k :: 0 <= j < k < |at| ==> at[j] < at[k]
    ensures forall j :: 0 <= j < |at| ==> at[j] < |endpoints|
    ensures Selected(endpoints, entry) == Taken(endpoints, at)
  {
    assert endpoints[0..] == endpoints;
    at := PlacesFrom(endpoints, entry, 0);
    forall i: nat ensures i in at <==> i < |endpoints| && (entry.None? || endpoints[i].name == entry.value) {
      PlacesMembers(endpoints, entry, 0, i);
    }
    PlacesIncrease(endpoints, entry, 0);
    SelectedIsTaken(endpoints, entry, 0);
  }

  predicate DistinctNames(endpoints: seq<Endpoint>) {
    forall i, j :: 0 <= i < j < |endpoints| ==> endpoints[i].name != endpoints[j].name
  }

  lemma NamesDiffer(endpoints: seq<Endpoint>)
    ensures DistinctNames(endpoints) <==> forall j, k :: 0 <= j < k < |endpoints| ==> endpoints[j].name != endpoints[k].name
  {
  }

  function IdOf(peer: string, service: string, e: Endpoint): Identity {
    Identity(peer, service, e.name)
  }

  function IdsOf(peer: string, service: string, endpoints: seq<Endpoint>): set<Identity> {
    set e <- endpoints :: IdOf(peer, service, e)
  }

  /** Exactly one active rule serves the entry, from this port with this protocol. */
  ghost predicate ServedBy(rules: RuleTable, id: Identity, host: string, port: U16, protocol: string) {
    exists k <- rules ::
      Serves(rules[k], id) && rules[k].host == host && rules[k].port == port && rules[k].protocol == Some(protocol)
      && OnlyUnder(rules, id, k)
  }

  predicate ServesOneOf(r: ForwardingRule, ids: set<Identity>) {
    exists id <- ids :: Serves(r, id)
  }

  /** Every rule that serves none of the entries is as it was, and none is new. */
  ghost predicate OthersKept(before: RuleTable, after: RuleTable, ids: set<Identity>) {
    (forall k <- before :: !ServesOneOf(before[k], ids) ==> k in after && after[k] == before[k])
    && (forall k <- after :: !ServesOneOf(after[k], ids) ==> k in before && before[k] == after[k])
  }

  ghost predicate RecordsKept(before: seq<Record>, after: seq<Record>, ids: set<Identity>) {
    forall id :: id !in ids ==> Find(after, id) == Find(before, id)
  }

  /** The endpoint is attached: its one rule uses the saved port and the endpoint's protocol. */
  ghost predicate Attached(rules: RuleTable, saved: seq<Record>, id: Identity, protocol: string) {
    Find(saved, id).Some? && ServedBy(rules, id, LOCALHOST, Find(saved, id).value.port, protocol)
  }

  lemma OthersKeptTrans(a: RuleTable, b: RuleTable, c: RuleTable, some: set<Identity>, one: Identity)
    requires OthersKept(a, b, some) && OthersKept(b, c, {one})
    ensures OthersKept(a, c, some + {one})
  {
    forall k | k in a && !ServesOneOf(a[k], some + {one}) ensures k in c && c[k] == a[k] {
      NotServing(a[k], some, one);
    }
    forall k | k in c && !ServesOneOf(c[k], some + {one}) ensures k in a && a[k] == c[k] {
      NotServing(c[k], some, one);
    }
  }

  lemma NotServing(r: ForwardingRule, some: set<Identity>, one: Identity)
    requires !ServesOneOf(r, some + {one})
    ensures !ServesOneOf(r, some) && !ServesOneOf(r, {one})
  {
    assert forall id <- some :: id in some + {one};
    assert one in some + {one};
  }

  /** Work on one entry does not disturb another that is attached. */
  lemma AttachedSurvives(before: RuleTable, after: RuleTable, saved: seq<Record>, saved': seq<Record>,
                         id: Identity, protocol: string, other: Identity)
    requires Attached(before, saved, id, protocol) && id != other
    requires OthersKept(before, after, {other}) && Find(saved', id) == Find(saved, id)
    ensures Attached(after, saved', id, protocol)
  {
    var port := Find(saved, id).value.port;
    var k :| k in before && Serves(before[k], id) && before[k].host == LOCALHOST && before[k].port == port
             && before[k].protocol == Some(protocol) && OnlyUnder(before, id, k);
    assert !ServesOneOf(before[k], {other});
    forall j | j in after && Serves(after[j], id) ensures j == k {
      assert !ServesOneOf(after[j], {other});
    }
  }

  function Mishap(ok: bool): nat {
    if ok then 0 else 1
  }

  /** What the operating system says of local ports: one it offers, if any, and whether one can be bound. */
  datatype PortAnswer = Offered(free: Option<U16>) | Bound(port: U16, ok: bool)

  function OfferIn(answers: seq<PortAnswer>): Option<U16> {
    if answers != [] && answers[0].Offered? then answers[0].free else None
  }

  predicate NoneRefused(answers: seq<PortAnswer>) {
    forall a <- answers :: a.Bound? ==> a.ok
  }

  /** The questions for one endpoint: a port is allocated if none is asked for or saved, and tried unless the rule has it or another entry. */
  function Asked(prefs: seq<Record>, reserved: set<U16>, existing: Option<(string, ForwardingRule)>,
                 id: Identity, wanted: Option<U16>, free: Option<U16>, bindable: bool): seq<PortAnswer>
  {
    var port := SelectPort(wanted, Find(prefs, id), free);
    (if wanted.None? && Find(prefs, id).None? then [Offered(free)] else [])
    + (if port.Some? && !OwnsPort(existing, port.value) && port.value !in Released(reserved, Find(prefs, id), existing)
       then [Bound(port.value, bindable)] else [])
  }

  /** These are answers to just those questions; a port that is offered is no other entry's. */
  predicate Answers(answers: seq<PortAnswer>, prefs: seq<Record>, reserved: set<U16>, existing: Option<(string, ForwardingRule)>,
                    id: Identity, wanted: Option<U16>)
  {
    answers == Asked(prefs, reserved, existing, id, wanted, OfferIn(answers), NoneRefused(answers))
    && (OfferIn(answers).Some? ==> OfferIn(answers).value !in Released(reserved, Find(prefs, id), existing) && OfferIn(answers).value != 0)
  }

  /** What is decided on these answers. */
  function Decision(answers: seq<PortAnswer>, prefs: seq<Record>, reserved: set<U16>, existing: Option<(string, ForwardingRule)>,
                    id: Identity, protocol: string, wanted: Option<U16>): Result<Plan>
  {
    PlanEndpoint(prefs, reserved, existing, id, protocol, wanted, OfferIn(answers), NoneRefused(answers))
  }

  class ServiceAccesses {
    const tunneling: TcpTunneling
    /** The contents of `cache/local_preferences.json`. */
    var saved: seq<Record>
    var detached: set<(string, string)>
    /** How often the operating system has refused something: a file, or a port. */
    ghost var mishaps: nat
    /** What it has answered about ports, in order. */
    ghost var answers: seq<PortAnswer>

    /** The table is one the adders leave, and the file one this program wrote. */
    ghost predicate Valid()
      reads this`saved, tunneling
    {
      tunneling.Valid() && AtMostOneEach(tunneling.rules) && WellFormed(saved)
    }

    constructor (tunneling: TcpTunneling, saved: seq<Record>)
      requires tunneling.Valid() && tunneling.rules == map[] && WellFormed(saved)
      ensures Valid() && this.tunneling == tunneling && this.saved == saved && detached == {}
    {
      this.tunneling := tunneling;
      this.saved := saved;
      detached := {};
      mishaps := 0;
      answers := [];
    }

    // ---------- what the environment decides ----------

    /** Writing the file replaces it or leaves it. */
    method SaveToFile(records: seq<Record>) returns (ok: bool)
      modifies this`saved, this`mishaps
      ensures saved == if ok then records else old(saved)
      ensures mishaps == old(mishaps) + Mishap(ok)
    {
      ok := *;
      if ok {
        saved := records;
      }
      mishaps := mishaps + Mishap(ok);
    }

    method CanRead() returns (ok: bool)
      modifies this`mishaps
      ensures mishaps == old(mishaps) + Mishap(ok)
    {
      ok := *;
      mishaps := mishaps + Mishap(ok);
    }

    method CanBind(port: U16) returns (ok: bool)
      modifies this`mishaps
      ensures mishaps == old(mishaps) + Mishap(ok)
    {
      ok := *;
      mishaps := mishaps + Mishap(ok);
    }

    /** A port is no other entry's, and the operating system lets it be bound. */
    method EnsureLocalPortAvailable(port: U16, reserved: set<U16>) returns (ok: bool)
      modifies this`mishaps, this`answers
      ensures if port in reserved
              then !ok && answers == old(answers) && mishaps == old(mishaps)
              else answers == old(answers) + [Bound(port, ok)] && mishaps == old(mishaps) + Mishap(ok)
    {
      if port in reserved {
        return false;
      }
      ok := CanBind(port);
      answers := answers + [Bound(port, ok)];
    }

    /** Thirty-two ports offered by the operating system; it may refuse, or offer none that is not reserved. */
    method AllocateFreeLocalPort(reserved: set<U16>) returns (free: Option<U16>)
      modifies this`mishaps, this`answers
      ensures free.Some? ==> free.value !in reserved && free.value != 0
      ensures mishaps == old(mishaps) + Mishap(free.Some?) && answers == old(answers) + [Offered(free)]
    {
      free := None;
      for attempt := 0 to 32
        invariant mishaps == old(mishaps) && answers == old(answers)
      {
        var bound := CanBind(0);
        if !bound {
          answers := answers + [Offered(None)];
          return;
        }
        var port: U16 :| port != 0;
        if port !in reserved {
          answers := answers + [Offered(Some(port))];
          return Some(port);
        }
      }
      mishaps := mishaps + 1;
      answers := answers + [Offered(None)];
    }

    // ---------- attach ----------

    /** Puts a rule back unless its service is marked detached; one that can no longer be added is let go. */
    method RestoreRuleIfAttached(rule: ForwardingRule)
      requires tunneling.Valid()
      modifies tunneling
      ensures tunneling.Valid()
      ensures tunneling.rules == if rule.service.Some? && (rule.peer, rule.service.value) !in detached
                                    && tunneling.Startable(rule) && RuleId(rule) !in old(tunneling.rules)
                                 then old(tunneling.rules)[RuleId(rule) := rule]
                                 else old(tunneling.rules)
    {
      if rule.service.None? || (rule.peer, rule.service.value) in detached {
        return;
      }
      var r := tunneling.Add(rule);
      if r.Ok? && (rule.peer, rule.service.value) in detached {
        // the second test of the mark succeeds only beside a concurrent detach
        assert false;
      }
    }

    /** What a failed replacement leaves: everything, or all but the displaced rule of a marked service. */
    ghost predicate GivenBack(before: RuleTable, existing: Option<(string, ForwardingRule)>, id: Identity)
      reads this, tunneling
    {
      tunneling.rules == if (id.peer, id.service) in detached then Displace(before, existing) else before
    }

    /** What a failure leaves: all the rules, or all but the one that served the entry. */
    ghost predicate GivenBackOrLost(before: RuleTable, existing: Option<(string, ForwardingRule)>, lost: bool)
      reads tunneling
    {
      tunneling.rules == if lost && existing.Some? then Without(before, existing.value.0) else before
    }

    /** The new rule can take the place of the displaced one. */
    ghost predicate CanStart(rules: RuleTable, existing: Option<(string, ForwardingRule)>, rule: ForwardingRule) {
      IsServiceAccessRule(rule) && tunneling.Startable(rule) && RuleId(rule) !in Displace(rules, existing)
    }

    /** What keeps the rule for a saved record from starting: an empty name, what does not parse, or another rule with its id. */
    lemma CanStartFields(rules: RuleTable, existing: Option<(string, ForwardingRule)>, record: Record, protocol: string)
      ensures var rule := ForwardingRule(record.host, record.port, record.id.peer, Some(protocol), None,
                                         Some(record.id.service), Some(record.id.entry));
              CanStart(rules, existing, RuleFor(record, protocol)) <==>
                record.id.service != "" && record.id.entry != "" && tunneling.accepts(rule)
                && (RuleId(rule) in rules ==> existing.Some? && existing.value.0 == RuleId(rule))
    {
      hide RuleId;
    }

    /** Removes the entry's active rule, if any, and starts the new one. */
    method SwapRule(existing: Option<(string, ForwardingRule)>, rule: ForwardingRule, ghost id: Identity) returns (ok: bool)
      requires Valid() && IsFoundRule(tunneling.rules, existing, id) && Serves(rule, id)
      modifies tunneling
      ensures tunneling.Valid() && ok == CanStart(old(tunneling.rules), existing, rule)
      ensures if ok
              then RuleId(rule) !in Displace(old(tunneling.rules), existing)
                   && tunneling.rules == Displace(old(tunneling.rules), existing)[RuleId(rule) := rule]
              else GivenBack(old(tunneling.rules), existing, id)
    {
      if existing.Some? {
        var removed := tunneling.Remove(existing.value.0);
        assert removed;
      }
      if IsServiceAccessRule(rule) {
        var added := tunneling.Add(rule);
        if added.Ok? {
          return true;
        }
      }
      if existing.Some? {
        RestoreRuleIfAttached(existing.value.1);
        PutBack(old(tunneling.rules), existing.value.0);
      }
      return false;
    }

    lemma TakenOut(rules: RuleTable, id: string, rule: ForwardingRule)
      requires id !in rules
      ensures Without(rules[id := rule], id) == rules
    {
    }

    /** Takes the started rule out again and puts the displaced one back. */
    method UndoSwap(existing: Option<(string, ForwardingRule)>, rule: ForwardingRule, ghost id: Identity, ghost before: RuleTable)
      requires tunneling.Valid() && IsFoundRule(before, existing, id)
      requires forall k <- before :: k == RuleId(before[k]) && tunneling.Startable(before[k])
      requires RuleId(rule) !in Displace(before, existing)
      requires tunneling.rules == Displace(before, existing)[RuleId(rule) := rule]
      modifies tunneling
      ensures tunneling.Valid() && GivenBack(before, existing, id)
    {
      hide HasTarget, IsServiceAccessRule;
      var _ := tunneling.Remove(RuleId(rule));
      TakenOut(Displace(before, existing), RuleId(rule), rule);
      assert tunneling.rules == Displace(before, existing);
      if existing.Some? {
        RestoreRuleIfAttached(existing.value.1);
        PutBack(before, existing.value.0);
      }
    }

    /** A failure costs a marked service the rule that served the entry, once its replacement was begun. */
    ghost predicate Loses(existing: Option<(string, ForwardingRule)>, planned: Result<Plan>, id: Identity)
      reads this`detached
    {
      (id.peer, id.service) in detached && existing.Some? && planned.Ok? && !planned.value.job.matches
    }

    /**
     * One iteration of the loop of `attach`. What is decided follows from what the operating system
     * answers about ports. The iteration fails without a trace, file and rules as before, unless the
     * service is marked detached, something served the entry, the plan was accepted and the rule did
     * not match it: just then the displaced rule is lost.
     */
    method AttachEndpoint(id: Identity, protocol: string, wanted: Option<U16>,
                          prefs: seq<Record>, active: Listing, reserved: set<U16>)
      returns (r: Result<Turn>, ghost said: seq<PortAnswer>)
      requires Valid() && prefs == saved && Lists(active, tunneling.rules)
      modifies this`saved, this`mishaps, this`answers, tunneling
      ensures Valid() && old(mishaps) <= mishaps && answers == old(answers) + said
      ensures Answers(said, prefs, reserved, FindActive(active, id), id, wanted)
      ensures mishaps == old(mishaps) ==>
                (wanted.None? && Find(prefs, id).None? ==> OfferIn(said).Some?)
                && (r.Err? <==> TurnedDown(old(tunneling.rules), prefs, reserved, FindActive(active, id), id, protocol, wanted, OfferIn(said)))
      ensures r.Ok? ==> r.value.reserved <= reserved + {r.value.record.port}
      ensures r.Ok? && wanted.None? && Find(old(saved), id).None? ==>
                OfferIn(said).Some? && r.value.record == Record(id, LOCALHOST, OfferIn(said).value, Auto)
      ensures var planned := Decision(said, prefs, reserved, FindActive(active, id), id, protocol, wanted);
              && (r.Ok? ==> planned.Ok? && r.value.record == planned.value.job.record)
              && (r.Err? ==> GivenBackOrLost(old(tunneling.rules), FindActive(active, id), Loses(FindActive(active, id), planned, id)))
              && (r.Err? ==> (tunneling.rules == old(tunneling.rules) <==>
                                (id.peer, id.service) !in detached || FindActive(active, id).None?
                                || planned.Err? || planned.value.job.matches))
      ensures r.Ok? ==> TurnDone(old(saved), old(tunneling.rules), id, protocol, r.value)
      ensures r.Ok? && wanted.Some? ==> r.value.record.port == wanted.value && r.value.record.source == User
      ensures r.Ok? && wanted.None? && Find(old(saved), id).Some? ==>
                r.value.record == Find(old(saved), id).value.(host := LOCALHOST)
      ensures r.Err? ==> saved == old(saved)
      ensures r.Err? ==> IsFoundRule(old(tunneling.rules), FindActive(active, id), id)
    {
      hide TurnDone, TurnedDown, Lists, Answers, PlanEndpoint, WellFormed, AtMostOneEach, IsFoundRule, CanStart;
      ghost var before := tunneling.rules;
      var existing := FindActive(active, id);
      FoundInTable(active, id);
      FindIsMember(prefs, id);
      RemovalShows(before, existing, id);
      var plan;
      plan, said := PlanHere(id, protocol, wanted, prefs, existing, reserved);
      ghost var asked := mishaps;
      if asked == old(mishaps) {
        PlanOrDown(prefs, reserved, existing, id, protocol, wanted, OfferIn(said), before);
      }
      PlanFields(said, prefs, reserved, existing, id, protocol, wanted);
      if plan.Err? {
        return Err, said;
      }
      r := Install(plan.value, existing, id, protocol, prefs, active);
    }

    lemma RemovalShows(rules: RuleTable, existing: Option<(string, ForwardingRule)>, id: Identity)
      requires IsFoundRule(rules, existing, id)
      ensures existing.Some? ==> Without(rules, existing.value.0) != rules
    {
    }

    lemma ReplacementIsPlanned(said: seq<PortAnswer>, prefs: seq<Record>, rule: ForwardingRule, id: Identity, refused: string, port: U16)
      requires CanUpsert(prefs, Record(id, LOCALHOST, port, User)) && rule.host == LOCALHOST && rule.port == port
      requires rule.protocol != Some(refused)
      ensures var planned := Decision(said, prefs, {port}, Some((RuleId(rule), rule)), id, refused, Some(port));
              planned.Ok? && !planned.value.job.matches
    {
    }

    lemma RefusedServesNobody(id: Identity, port: U16, refused: string)
      requires tunneling.Valid() && forall rule: ForwardingRule :: rule.protocol == Some(refused) ==> !tunneling.accepts(rule)
      ensures !ServedBy(tunneling.rules, id, LOCALHOST, port, refused)
    {
    }

    /**
     * A marked service that still has a rule (an attach that failed at a later endpoint leaves it so) is
     * attached again on the same port with a protocol that does not parse. The attach is refused, and
     * the rule that worked is gone.
     */
    method RefusedReplacementLosesTheRule(id: Identity, works: string, refused: string, port: U16) returns (r: Result<Turn>)
      requires Valid() && CanUpsert(saved, Record(id, LOCALHOST, port, User)) && works != refused
      requires var rule := RuleFor(Record(id, LOCALHOST, port, User), works); tunneling.rules == map[RuleId(rule) := rule]
      requires forall rule: ForwardingRule :: rule.protocol == Some(refused) ==> !tunneling.accepts(rule)
      requires (id.peer, id.service) in detached
      modifies this`saved, this`mishaps, this`answers, tunneling
      ensures r.Err? && saved == old(saved) && tunneling.rules == map[]
    {
      hide PlanEndpoint, ServedBy, WellFormed, CanUpsert, AtMostOneEach;
      var active := tunneling.List();
      FoundInTable(active, id);
      ghost var rule := RuleFor(Record(id, LOCALHOST, port, User), works);
      assert Serves(tunneling.rules[RuleId(rule)], id);
      assert FindActive(active, id) == Some((RuleId(rule), rule));
      ghost var prefs, said := saved, [];
      r, said := AttachEndpoint(id, refused, Some(port), saved, active, {port});
      ReplacementIsPlanned(said, prefs, rule, id, refused, port);
      RefusedServesNobody(id, port, refused);
    }

    /** The planned rule takes the place of the active one and the record is saved, or neither. */
    method Install(plan: Plan, existing: Option<(string, ForwardingRule)>, id: Identity, protocol: string,
                   prefs: seq<Record>, active: Listing)
      returns (r: Result<Turn>)
      requires Valid() && prefs == saved && Lists(active, tunneling.rules) && IsFoundRule(tunneling.rules, existing, id)
      requires var job := plan.job;
               && job.record.id == id && job.record.host == LOCALHOST && CanUpsert(prefs, job.record)
               && (job.matches ==> existing.Some? && OwnsPort(existing, job.record.port) && existing.value.1.protocol == Some(protocol))
      modifies this`saved, this`mishaps, tunneling
      ensures Valid() && old(mishaps) <= mishaps
      ensures r.Err? && mishaps == old(mishaps) ==>
                !plan.job.matches && !CanStart(old(tunneling.rules), existing, RuleFor(plan.job.record, protocol))
      ensures r.Ok? ==> plan.job.matches || CanStart(old(tunneling.rules), existing, RuleFor(plan.job.record, protocol))
      ensures r.Ok? ==> r.value.reserved == plan.reserved + {plan.job.record.port}
      ensures r.Ok? ==> r.value.record == plan.job.record && TurnDone(old(saved), old(tunneling.rules), id, protocol, r.value)
      ensures r.Err? ==> saved == old(saved)
      ensures r.Err? ==> GivenBackOrLost(old(tunneling.rules), existing, Loses(existing, Ok(plan), id))
    {
      hide UniqueIdentities, UniquePorts, Sorting.Sorted, PortUsedByOther, WellFormed, ServedBy, OthersKept, CanStart, Upsert;
      ghost var before := tunneling.rules;
      var job := plan.job;
      var rule := RuleFor(job.record, protocol);
      if !job.matches {
        var started := SwapRule(existing, rule, id);
        if !started {
          return Err;
        }
      }
      UpsertKeepsWellFormed(prefs, job.record);
      var updated := Upsert(prefs, job.record);
      var ok := SaveToFile(updated);
      if !ok {
        if !job.matches {
          UndoSwap(existing, rule, id, before);
        }
        return Err;
      }
      var active' := active;
      if !job.matches {
        Replaced(before, existing, rule, id);
        active' := tunneling.List();
      } else {
        MatchServes(before, existing, id);
      }
      return Ok(Turn(job.record, updated, active', plan.reserved + {job.record.port}));
    }

    lemma MatchServes(rules: RuleTable, existing: Option<(string, ForwardingRule)>, id: Identity)
      requires existing.Some? && IsFoundRule(rules, existing, id) && existing.value.1.protocol.Some?
      ensures ServedBy(rules, id, existing.value.1.host, existing.value.1.port, existing.value.1.protocol.value)
      ensures OthersKept(rules, rules, {id})
    {
      assert Serves(rules[existing.value.0], id);
    }

    /**
     * Why an endpoint is turned down though the operating system refuses nothing. Its port is the one
     * wanted, else the saved one, else the one offered. The port is another entry's, or the record is
     * not one that can be saved, or the rule is not there already and cannot be started.
     */
    ghost predicate TurnedDown(rules: RuleTable, prefs: seq<Record>, reserved: set<U16>, existing: Option<(string, ForwardingRule)>,
                               id: Identity, protocol: string, wanted: Option<U16>, free: Option<U16>)
      requires wanted.None? && Find(prefs, id).None? ==> free.Some?
    {
      var mine := Find(prefs, id);
      var port := if wanted.Some? then wanted.value else if mine.Some? then mine.value.port else free.value;
      var source := if wanted.Some? then User else if mine.Some? then mine.value.source else Auto;
      var record := Record(id, "127.0.0.1", port, source);
      || (port in reserved && !(mine.Some? && mine.value.port == port) && !(existing.Some? && existing.value.1.port == port))
      || !IsValid(record)
      || (exists r <- prefs :: r.host == "127.0.0.1" && r.port == port && r.id != id)
      || (!(existing.Some? && existing.value.1.host == "127.0.0.1" && existing.value.1.port == port
            && existing.value.1.protocol == Some(protocol))
          && !CanStart(rules, existing, RuleFor(record, protocol)))
    }

    lemma PlanFields(said: seq<PortAnswer>, prefs: seq<Record>, reserved: set<U16>, existing: Option<(string, ForwardingRule)>,
                     id: Identity, protocol: string, wanted: Option<U16>)
      ensures var planned := Decision(said, prefs, reserved, existing, id, protocol, wanted);
              planned.Ok? ==>
                planned.value.reserved <= reserved
                && (wanted.None? && Find(prefs, id).None? ==>
                      OfferIn(said).Some? && planned.value.job.record == Record(id, LOCALHOST, OfferIn(said).value, Auto))
    {
    }

    /** The plan is refused, or its rule cannot start, just then. */
    lemma PlanOrDown(prefs: seq<Record>, reserved: set<U16>, existing: Option<(string, ForwardingRule)>, id: Identity, protocol: string,
                     wanted: Option<U16>, free: Option<U16>, rules: RuleTable)
      requires wanted.None? && Find(prefs, id).None? ==> free.Some?
      ensures TurnedDown(rules, prefs, reserved, existing, id, protocol, wanted, free) <==>
                match PlanEndpoint(prefs, reserved, existing, id, protocol, wanted, free, true)
                case Err => true
                case Ok(plan) => !plan.job.matches && !CanStart(rules, existing, RuleFor(plan.job.record, protocol))
    {
      hide CanStart;
    }

    /** The turn has saved the record and left one rule for it, and touched nothing else. */
    ghost predicate TurnDone(before: seq<Record>, rules: RuleTable, id: Identity, protocol: string, turn: Turn)
      reads this, tunneling
    {
      turn.record.id == id && turn.record.host == LOCALHOST && IsValid(turn.record)
      && saved == Upsert(before, turn.record) && turn.prefs == saved && Lists(turn.active, tunneling.rules)
      && ServedBy(tunneling.rules, id, LOCALHOST, turn.record.port, protocol)
      && OthersKept(rules, tunneling.rules, {id}) && turn.record.port in turn.reserved
    }

    /** The decision for one endpoint, on the answers of the operating system. */
    method PlanHere(id: Identity, protocol: string, wanted: Option<U16>, prefs: seq<Record>,
                    existing: Option<(string, ForwardingRule)>, reserved: set<U16>)
      returns (planned: Result<Plan>, ghost said: seq<PortAnswer>)
      modifies this`mishaps, this`answers
      ensures old(mishaps) <= mishaps && answers == old(answers) + said
      ensures Answers(said, prefs, reserved, existing, id, wanted)
      ensures planned == Decision(said, prefs, reserved, existing, id, protocol, wanted)
      ensures mishaps == old(mishaps) <==> NoneRefused(said) && (wanted.None? && Find(prefs, id).None? ==> OfferIn(said).Some?)
      ensures planned.Ok? ==>
                var job := planned.value.job;
                job.record.id == id && job.record.host == LOCALHOST && job.protocol == protocol
                && CanUpsert(prefs, job.record) && job.displaced == existing
                && (job.matches ==> existing.Some? && OwnsPort(existing, job.record.port) && existing.value.1.protocol == Some(protocol))
                && (wanted.Some? ==> job.record.port == wanted.value && job.record.source == User)
                && (wanted.None? && Find(prefs, id).Some? ==>
                      job.record == Record(id, LOCALHOST, Find(prefs, id).value.port, Find(prefs, id).value.source))
    {
      var remaining := Released(reserved, Find(prefs, id), existing);
      var offered := None;
      if wanted.None? && Find(prefs, id).None? {
        offered := AllocateFreeLocalPort(remaining);
      }
      var port := SelectPort(wanted, Find(prefs, id), offered);
      var available := true;
      if port.Some? && !OwnsPort(existing, port.value) {
        available := EnsureLocalPortAvailable(port.value, remaining);
      }
      said := Asked(prefs, reserved, existing, id, wanted, offered, available);
      planned := PlanEndpoint(prefs, reserved, existing, id, protocol, wanted, offered, available);
    }

    /** The operating system refused nothing, so the endpoint was turned down. A port of no rule and no record is not in its way. */
    ghost predicate Down(rules: RuleTable, before: seq<Record>, id: Identity, protocol: string, wanted: Option<U16>, distinct: bool)
      reads this, tunneling
    {
      exists now, reserved, existing, free ::
        DownIn(now, reserved, existing, free, id, protocol, wanted)
        && (distinct ==> reserved <= PortsInUse(rules, before) + PortsInUse(rules, saved))
    }

    ghost predicate DownIn(now: RuleTable, reserved: set<U16>, existing: Option<(string, ForwardingRule)>, free: Option<U16>,
                           id: Identity, protocol: string, wanted: Option<U16>)
      reads this, tunneling
    {
      IsFoundRule(now, existing, id) && ((id.peer, id.service) !in detached ==> now == tunneling.rules)
      && (wanted.None? && Find(saved, id).None? ==> free.Some?)
      && TurnedDown(now, saved, reserved, existing, id, protocol, wanted, free)
    }

    /** The loop of `attach`. */
    method AttachAll(peer: string, service: string, endpoints: seq<Endpoint>, wanted: Option<U16>)
      returns (r: Result<seq<AccessEndpoint>>, ghost done: nat)
      requires Valid()
      modifies this`saved, this`mishaps, this`answers, tunneling
      ensures Valid() && old(mishaps) <= mishaps
      ensures r.Ok? ==> done == |endpoints| && Done(old(tunneling.rules), old(saved), peer, service, endpoints, done, r.value)
      ensures r.Err? ==> done < |endpoints| && Stopped(old(tunneling.rules), old(saved), peer, service, endpoints, done)
      ensures r.Err? && mishaps == old(mishaps) ==>
                done < |endpoints|
                && Down(old(tunneling.rules), old(saved), IdOf(peer, service, endpoints[done]), endpoints[done].protocol, wanted,
                        DistinctNames(endpoints))
    {
      hide TurnDone, TurnedDown, Answers, Lists, WellFormed, AtMostOneEach, DoneAt, Stopped, GivenBackOrLost, Loses, Decision, IsFoundRule,
           PortsInUse, IdOf, OthersKept;
      done := 0;
      var prefs := saved;
      var active := tunneling.List();
      var reserved := (set r <- prefs :: r.port) + (set a <- active :: a.1.port);
      var enabled: seq<AccessEndpoint> := [];
      PortsAtFirst(active, tunneling.rules, saved);
      NothingDoneYet(tunneling.rules, saved, peer, service, endpoints);
      while |enabled| < |endpoints|
        invariant Valid() && prefs == saved && Lists(active, tunneling.rules) && old(mishaps) <= mishaps
        invariant done == |enabled| <= |endpoints| && Done(old(tunneling.rules), old(saved), peer, service, endpoints, done, enabled)
        invariant reserved <= PortsInUse(old(tunneling.rules), old(saved)) + GivenPorts(enabled)
      {
        var endpoint := endpoints[|enabled|];
        ghost var id := IdOf(peer, service, endpoint);
        ghost var rules, before := tunneling.rules, saved;
        var turn, said := AttachEndpoint(IdOf(peer, service, endpoint), endpoint.protocol, wanted, prefs, active, reserved);
        if turn.Err? {
          TurnFails(rules, Decision(said, prefs, reserved, FindActive(active, id), id, endpoint.protocol, wanted), FindActive(active, id), id, peer, service, endpoints, done, enabled,
                    old(tunneling.rules), old(saved), reserved);
          assert mishaps == old(mishaps) ==> DownIn(rules, reserved, FindActive(active, id), OfferIn(said), id, endpoint.protocol, wanted);
          return Err, done;
        }
        TurnGoesOn(rules, before, peer, service, endpoints, done, enabled, old(tunneling.rules), old(saved), turn.value);
        GivenPortsGrow(enabled, AccessEndpoint(endpoint.name, endpoint.protocol, LOCALHOST, turn.value.record.port));
        prefs, active, reserved := turn.value.prefs, turn.value.active, turn.value.reserved;
        enabled := enabled + [AccessEndpoint(endpoint.name, endpoint.protocol, LOCALHOST, turn.value.record.port)];
        done := done + 1;
      }
      return Ok(enabled), done;
    }

    lemma NothingDoneYet(rules: RuleTable, records: seq<Record>, peer: string, service: string, endpoints: seq<Endpoint>)
      ensures DoneAt(rules, records, rules, records, peer, service, endpoints, 0, [])
    {
    }

    lemma TurnGoesOn(mid: RuleTable, before: seq<Record>, peer: string, service: string, endpoints: seq<Endpoint>, i: nat,
                     enabled: seq<AccessEndpoint>, rules: RuleTable, first: seq<Record>, turn: Turn)
      requires i < |endpoints| && DoneAt(rules, first, mid, before, peer, service, endpoints, i, enabled)
      requires WellFormed(before) && TurnDone(before, mid, IdOf(peer, service, endpoints[i]), endpoints[i].protocol, turn)
      ensures DoneAt(rules, first, tunneling.rules, saved, peer, service, endpoints, i + 1,
                     enabled + [AccessEndpoint(endpoints[i].name, endpoints[i].protocol, LOCALHOST, turn.record.port)])
      ensures Lists(turn.active, tunneling.rules) && turn.prefs == saved
    {
      hide DoneAt, Lists, ServedBy, OthersKept, Upsert, IsValid, UniqueIdentities, UniquePorts, RecordLeq;
      TurnAdvances(rules, first, tunneling.rules, saved, peer, service, endpoints, i, enabled, mid, before, turn.record);
    }

    lemma TurnFails(mid: RuleTable, planned: Result<Plan>, existing: Option<(string, ForwardingRule)>, id: Identity, peer: string, service: string,
                    endpoints: seq<Endpoint>, i: nat, enabled: seq<AccessEndpoint>, rules: RuleTable, first: seq<Record>, reserved: set<U16>)
      requires i < |endpoints| && id == IdOf(peer, service, endpoints[i]) && i == |enabled|
      requires DoneAt(rules, first, mid, saved, peer, service, endpoints, i, enabled)
      requires IsFoundRule(mid, existing, id) && GivenBackOrLost(mid, existing, Loses(existing, planned, id))
      requires reserved <= PortsInUse(rules, first) + GivenPorts(enabled)
      ensures Stopped(rules, first, peer, service, endpoints, i)
      ensures DistinctNames(endpoints) ==> reserved <= PortsInUse(rules, first) + PortsInUse(rules, saved)
      ensures (peer, service) !in detached ==> tunneling.rules == mid
    {
      LostOrKept(mid, tunneling.rules, id, existing);
      TurnStops(rules, first, tunneling.rules, saved, peer, service, endpoints, i, enabled, mid);
      if DistinctNames(endpoints) {
        GivenPortsSaved(saved, peer, service, endpoints, i, enabled, rules);
      }
    }

    ghost predicate Done(rules: RuleTable, before: seq<Record>, peer: string, service: string,
                         endpoints: seq<Endpoint>, i: nat, enabled: seq<AccessEndpoint>)
      requires i <= |endpoints|
      reads this, tunneling
    {
      DoneAt(rules, before, tunneling.rules, saved, peer, service, endpoints, i, enabled)
    }

    /** A failure after `done` endpoints: the rest is as before, unless the service was marked detached. */
    ghost predicate Stopped(rules: RuleTable, before: seq<Record>, peer: string, service: string, endpoints: seq<Endpoint>, done: nat)
      requires done < |endpoints|
      reads this, tunneling
    {
      RecordsKept(before, saved, IdsOf(peer, service, endpoints[..done]))
      && OthersKept(rules, tunneling.rules, IdsOf(peer, service, endpoints))
      && ((peer, service) !in detached ==> OthersKept(rules, tunneling.rules, IdsOf(peer, service, endpoints[..done])))
      && (DistinctNames(endpoints) ==>
            forall j :: 0 <= j < done ==>
              Attached(tunneling.rules, saved, IdOf(peer, service, endpoints[j]), endpoints[j].protocol))
    }

    /**
     * `at` are the places of the endpoints to attach: of those named like the entry, or of all. Ok: just
     * these are returned, and with distinct names each has one active rule, on its saved port and with its
     * protocol, and that port is the one returned; the mark is cleared. In any case nothing of another
     * entry changes. On failure the endpoints before `done` are attached and the others as before, unless
     * the service was marked detached; and if the operating system refused nothing, it is the request that
     * was, or the endpoint at `done`.
     */
    method Attach(peer: string, service: DeviceService, entry: Option<string>, wanted: Option<U16>)
      returns (r: Result<ServiceAccess>, ghost done: nat, ghost at: seq<nat>, ghost enabled: seq<AccessEndpoint>)
      requires Valid()
      modifies this, tunneling
      ensures Valid() && old(mishaps) <= mishaps
      ensures detached == if r.Ok? then old(detached) - {(peer, service.name)} else old(detached)
      ensures forall i: nat :: i in at <==> i < |service.endpoints| && (entry.None? || service.endpoints[i].name == entry.value)
      ensures (forall j, k :: 0 <= j < k < |at| ==> at[j] < at[k]) && (forall j :: 0 <= j < |at| ==> at[j] < |service.endpoints|)
      ensures at == [] || (wanted.Some? && |service.endpoints| > 1 && entry.None?) ==>
                r.Err? && saved == old(saved) && tunneling.rules == old(tunneling.rules)
      ensures r.Ok? ==>
                r.value.peer == peer && r.value.service == service.name && |enabled| == |at|
                && (forall j :: 0 <= j < |at| ==>
                      enabled[j].name == service.endpoints[at[j]].name && enabled[j].protocol == service.endpoints[at[j]].protocol)
                && multiset(enabled) == multiset(r.value.endpoints) && Sorting.Sorted(NameLeq, r.value.endpoints)
                && (entry.Some? ==> enabled == r.value.endpoints)
      ensures r.Ok? ==>
                DoneAt(old(tunneling.rules), old(saved), tunneling.rules, saved, peer, service.name,
                       Taken(service.endpoints, at), |at|, enabled)
      ensures r.Ok? && (forall j, k :: 0 <= j < k < |service.endpoints| ==> service.endpoints[j].name != service.endpoints[k].name) ==>
                forall e <- enabled :: exists k <- tunneling.rules ::
                  var rule := tunneling.rules[k];
                  rule.peer == peer && rule.service == Some(service.name) && rule.entry == Some(e.name)
                  && rule.host == "127.0.0.1" && rule.port == e.port && rule.protocol == Some(e.protocol)
      ensures r.Err? ==>
                (saved == old(saved) && tunneling.rules == old(tunneling.rules))
                || (done < |at| && Stopped(old(tunneling.rules), old(saved), peer, service.name, Taken(service.endpoints, at), done))
      ensures r.Err? && mishaps == old(mishaps) ==>
                at == [] || (wanted.Some? && |service.endpoints| > 1 && entry.None?)
                || (done < |at|
                    && var e := service.endpoints[at[done]];
                    Down(old(tunneling.rules), old(saved), IdOf(peer, service.name, e), e.protocol, wanted,
                         DistinctNames(Taken(service.endpoints, at))))
    {
      hide DoneAt, Stopped, Down, WellFormed, AtMostOneEach, Sorting.Sorted, Sorting.Sort, NameLeq, Taken, Selected, IdOf, DistinctNames;
      done, enabled := 0, [];
      NamesDiffer(service.endpoints);
      at := WhatIsSelected(service.endpoints, entry);
      if service.endpoints == [] {
        return Err, done, at, enabled;
      }
      if wanted.Some? && |service.endpoints| > 1 && entry.None? {
        return Err, done, at, enabled;
      }
      var readable := CanRead();
      if !readable {
        return Err, done, at, enabled;
      }
      var endpoints := Selected(service.endpoints, entry);
      TakenAt(service.endpoints, at);
      if endpoints == [] {
        return Err, done, at, enabled;
      }
      var attached;
      attached, done := AttachAll(peer, service.name, endpoints, wanted);
      if attached.Err? {
        return Err, done, at, enabled;
      }
      enabled := attached.value;
      var sorted := Sorting.Sort(NameLeq, attached.value);
      SortedByName(attached.value);
      AttachedIsReturned(old(tunneling.rules), old(saved), tunneling.rules, saved, peer, service.name, service.endpoints, at, enabled);
      if entry.Some? {
        OneNameStays(enabled, entry.value);
      }
      detached := detached - {(peer, service.name)};
      return Ok(ServiceAccess(peer, service.name, sorted)), done, at, enabled;
    }

    // ---------- detach, forget, restore ----------

    /** Alone, removing a service's (or a device's) rules always succeeds, and removes just those. */
    method RemoveMatchingRules(peer: string, service: Option<string>) returns (ok: bool)
      requires tunneling.Valid()
      modifies tunneling
      ensures tunneling.Valid() && ok
      ensures tunneling.rules == WithoutMatching(old(tunneling.rules), peer, service)
      ensures forall k <- old(tunneling.rules) ::
                var rule := old(tunneling.rules)[k];
                if rule.peer == peer && (service.None? || rule.service == service) then k !in tunneling.rules
                else k in tunneling.rules && tunneling.rules[k] == rule
      ensures tunneling.rules.Keys <= old(tunneling.rules).Keys
    {
      ghost var before := tunneling.rules;
      var listing := tunneling.List();
      var ids := MatchingIds(listing, peer, service);
      MatchingIdsAll(listing, before, peer, service);
      assert ids[..0] == [] && MinusIds(before, []) == before;
      var i := 0;
      while i < |ids|
        invariant 0 <= i <= |ids| && tunneling.Valid()
        invariant tunneling.rules == MinusIds(before, ids[..i])
      {
        OneIdLess(before, ids, i);
        var removed := tunneling.Remove(ids[i]);
        if !removed {
          assert false;
          return false;
        }
        i := i + 1;
      }
      assert ids[..|ids|] == ids;
      return true;
    }

    method Detach(peer: string, service: string) returns (ok: bool)
      requires Valid()
      modifies this`detached, tunneling
      ensures Valid() && ok && detached == old(detached) + {(peer, service)}
      ensures forall k <- old(tunneling.rules) ::
                var rule := old(tunneling.rules)[k];
                if rule.peer == peer && rule.service == Some(service) then k !in tunneling.rules
                else k in tunneling.rules && tunneling.rules[k] == rule
      ensures tunneling.rules.Keys <= old(tunneling.rules).Keys
    {
      detached := detached + {(peer, service)};
      ok := RemoveMatchingRules(peer, Some(service));
    }

    method ForgetService(peer: string, service: string) returns (ok: bool)
      requires Valid()
      modifies this, tunneling
      ensures Valid() && detached == old(detached) + {(peer, service)}
      ensures forall k <- old(tunneling.rules) ::
                var rule := old(tunneling.rules)[k];
                if rule.peer == peer && rule.service == Some(service) then k !in tunneling.rules
                else k in tunneling.rules && tunneling.rules[k] == rule
      ensures tunneling.rules.Keys <= old(tunneling.rules).Keys
      ensures saved == if ok then WithoutService(old(saved), peer, service) else old(saved)
      ensures forall r :: r in saved <==> r in old(saved) && !(ok && r.id.peer == peer && r.id.service == service)
      ensures mishaps == old(mishaps) + Mishap(ok)
    {
      detached := detached + {(peer, service)};
      ok := RemoveMatchingRules(peer, Some(service));
      var readable := CanRead();
      if !readable {
        return false;
      }
      DropKeepsWellFormed(saved, (r: Record) => r.id.peer == peer && r.id.service == service);
      DropMembers(saved, (r: Record) => r.id.peer == peer && r.id.service == service);
      ok := SaveToFile(WithoutService(saved, peer, service));
    }

    /**
     * A file that cannot be read stops it before it starts; one that cannot be written only keeps the
     * records. Otherwise no rule of the device is left, whatever its service, every rule of another is,
     * and the services of the device that have a saved record are marked, and no others.
     */
    method ForgetDevice(peer: string) returns (ok: bool)
      requires Valid()
      modifies this, tunneling
      ensures Valid()
      ensures (ok || detached != old(detached) || tunneling.rules != old(tunneling.rules)) ==>
                (forall k <- old(tunneling.rules) ::
                   if old(tunneling.rules)[k].peer == peer then k !in tunneling.rules
                   else k in tunneling.rules && tunneling.rules[k] == old(tunneling.rules)[k])
                && tunneling.rules.Keys <= old(tunneling.rules).Keys
                && forall mark :: mark in detached <==>
                     mark in old(detached) || exists r <- old(saved) :: r.id.peer == peer && mark == (peer, r.id.service)
      ensures saved == if ok then WithoutDevice(old(saved), peer) else old(saved)
      ensures forall r :: r in saved <==> r in old(saved) && !(ok && r.id.peer == peer)
      ensures mishaps == old(mishaps) + Mishap(ok)
    {
      var readable := CanRead();
      if !readable {
        return false;
      }
      var preferences := saved;
      detached := detached + ServicesOf(preferences, peer);
      ok := RemoveMatchingRules(peer, None);
      DropKeepsWellFormed(saved, (r: Record) => r.id.peer == peer);
      DropMembers(saved, (r: Record) => r.id.peer == peer);
      ok := SaveToFile(WithoutDevice(preferences, peer));
    }

    /**
     * A restore acts only on a service that is not marked and on a record that is still saved, and
     * then on the record as saved now. A failure leaves the rules as they were.
     */
    method RestoreCurrentRecord(candidate: Identity, protocol: string) returns (ok: bool)
      requires Valid()
      modifies this`mishaps, tunneling
      ensures Valid() && old(mishaps) <= mishaps
      ensures !ok && mishaps == old(mishaps) ==>
                (candidate.peer, candidate.service) !in detached && Find(saved, candidate).Some?
                && CannotRestore(old(tunneling.rules), Find(saved, candidate).value, protocol)
      ensures OthersKept(old(tunneling.rules), tunneling.rules, {candidate})
      ensures (candidate.peer, candidate.service) in detached || Find(saved, candidate).None? || !ok ==>
                tunneling.rules == old(tunneling.rules)
      ensures ok && (candidate.peer, candidate.service) !in detached && Find(saved, candidate).Some? ==>
                var record := Find(saved, candidate).value;
                ServedBy(tunneling.rules, candidate, record.host, record.port, protocol)
    {
      if (candidate.peer, candidate.service) in detached {
        return true;
      }
      var readable := CanRead();
      if !readable {
        return false;
      }
      var found := FindRecord(saved, candidate);
      if found.None? {
        return true;
      }
      FindIsMember(saved, candidate);
      ok := RestoreForwardingRecord(found.value, protocol);
    }

    /** `restore_forwarding_record`: leaves one rule for the record, or everything as it was. */
    method RestoreForwardingRecord(record: Record, protocol: string) returns (ok: bool)
      requires Valid() && (record.id.peer, record.id.service) !in detached
      modifies tunneling
      ensures Valid() && OthersKept(old(tunneling.rules), tunneling.rules, {record.id})
      ensures ok ==> ServedBy(tunneling.rules, record.id, record.host, record.port, protocol)
      ensures !ok ==> tunneling.rules == old(tunneling.rules) && CannotRestore(old(tunneling.rules), record, protocol)
    {
      var listing := tunneling.List();
      var existing := FindActive(listing, record.id);
      FoundInTable(listing, record.id);
      if existing.Some? && existing.value.1.host == record.host && existing.value.1.port == record.port
         && existing.value.1.protocol == Some(protocol) {
        assert OnlyUnder(tunneling.rules, record.id, existing.value.0);
        return true;
      }
      var rule := RuleFor(record, protocol);
      var started := SwapRule(existing, rule, record.id);
      if !started {
        assert IsFoundRule(old(tunneling.rules), existing, record.id);
        return false;
      }
      Replaced(old(tunneling.rules), existing, rule, record.id);
      if (record.id.peer, record.id.service) in detached {
        // the second test of the mark succeeds only beside a concurrent detach
        assert false;
      }
      return true;
    }

    /** The record's rule cannot take the place of the entry's active one. */
    ghost predicate CannotRestore(rules: RuleTable, record: Record, protocol: string) {
      exists existing :: IsFoundRule(rules, existing, record.id) && !CanStart(rules, existing, RuleFor(record, protocol))
    }

    // ---------- lemmas about the table ----------

    lemma FoundInTable(listing: Listing, id: Identity)
      requires Valid() && Lists(listing, tunneling.rules)
      ensures IsFoundRule(tunneling.rules, FindActive(listing, id), id)
    {
      FindActiveIsListed(listing, id);
      var found := FindActive(listing, id);
      if found.None? {
        forall k | k in tunneling.rules ensures !Serves(tunneling.rules[k], id) {
          assert (k, tunneling.rules[k]) in listing;
        }
      } else {
        forall k | k in tunneling.rules && Serves(tunneling.rules[k], id) ensures k == found.value.0 {
          AtMostOneServes(tunneling.rules, id, k, found.value.0);
        }
      }
    }
  }

  function WithoutMatching(rules: RuleTable, peer: string, service: Option<string>): RuleTable {
    map k | k in rules && !OfService(rules[k], peer, service) :: rules[k]
  }

  function MatchingIds(listing: Listing, peer: string, service: Option<string>): seq<string> {
    if listing == [] then []
    else (if OfService(listing[0].1, peer, service) then [listing[0].0] else []) + MatchingIds(listing[1..], peer, service)
  }

  predicate Distinct(ids: seq<string>) {
    forall i, j :: 0 <= i < j < |ids| ==> ids[i] != ids[j]
  }

  function MinusIds(rules: RuleTable, ids: seq<string>): RuleTable {
    map k | k in rules && k !in ids :: rules[k]
  }

  lemma OneIdLess(rules: RuleTable, ids: seq<string>, i: nat)
    requires Distinct(ids) && i < |ids| && ids[i] in rules
    ensures ids[i] in MinusIds(rules, ids[..i])
    ensures Without(MinusIds(rules, ids[..i]), ids[i]) == MinusIds(rules, ids[..i + 1])
  {
    assert ids[..i + 1] == ids[..i] + [ids[i]];
    assert ids[i] !in ids[..i];
  }

  /** The ids of the matching entries, each once when the entries have distinct ids. */
  lemma {:induction false} MatchingIdsMatch(listing: Listing, peer: string, service: Option<string>)
    requires forall i, j :: 0 <= i < j < |listing| ==> listing[i].0 != listing[j].0
    ensures forall id <- MatchingIds(listing, peer, service) ::
              exists x <- listing :: x.0 == id && OfService(x.1, peer, service)
    ensures forall x <- listing :: OfService(x.1, peer, service) ==> x.0 in MatchingIds(listing, peer, service)
    ensures Distinct(MatchingIds(listing, peer, service))
  {
    if listing != [] {
      MatchingIdsMatch(listing[1..], peer, service);
      var rest := MatchingIds(listing[1..], peer, service);
      assert listing[0].0 !in rest;
      assert forall x <- listing :: x == listing[0] || x in listing[1..];
      assert forall x <- listing[1..] :: x in listing && x.0 != listing[0].0;
    }
  }

  lemma MatchingIdsAll(listing: Listing, rules: RuleTable, peer: string, service: Option<string>)
    requires Lists(listing, rules)
    ensures MinusIds(rules, MatchingIds(listing, peer, service)) == WithoutMatching(rules, peer, service)
    ensures Distinct(MatchingIds(listing, peer, service))
    ensures forall id <- MatchingIds(listing, peer, service) :: id in rules
  {
    MatchingIdsMatch(listing, peer, service);
    forall k | k in rules ensures k in MatchingIds(listing, peer, service) <==> OfService(rules[k], peer, service) {
      assert (k, rules[k]) in listing;
    }
  }

  lemma PutBack(rules: RuleTable, k: string)
    requires k in rules
    ensures Without(rules, k)[k := rules[k]] == rules
  {
  }

  /** The entry's one active rule, or none. */
  ghost predicate IsFoundRule(rules: RuleTable, existing: Option<(string, ForwardingRule)>, id: Identity) {
    if existing.None? then NoneServes(rules, id)
    else existing.value.0 in rules && rules[existing.value.0] == existing.value.1
         && Serves(existing.value.1, id) && OnlyUnder(rules, id, existing.value.0)
  }

  function Displace(rules: RuleTable, existing: Option<(string, ForwardingRule)>): RuleTable {
    if existing.Some? then Without(rules, existing.value.0) else rules
  }

  /** Replacing an entry's only rule: the new one serves it alone, and no other entry notices. */
  lemma Replaced(rules: RuleTable, existing: Option<(string, ForwardingRule)>, rule: ForwardingRule, id: Identity)
    requires AtMostOneEach(rules) && Serves(rule, id) && rule.protocol.Some?
    requires IsFoundRule(rules, existing, id)
    requires RuleId(rule) !in Displace(rules, existing)
    ensures var after := Displace(rules, existing)[RuleId(rule) := rule];
            AtMostOneEach(after) && OthersKept(rules, after, {id})
            && ServedBy(after, id, rule.host, rule.port, rule.protocol.value)
  {
    var fewer := Displace(rules, existing);
    var after := fewer[RuleId(rule) := rule];
    assert NoneServes(fewer, id);
    AddKeepsAtMostOne(fewer, rule, id);
    assert OnlyUnder(after, id, RuleId(rule));
    assert Serves(after[RuleId(rule)], id);
    forall k | k in rules && !ServesOneOf(rules[k], {id}) ensures k in after && after[k] == rules[k] {
      assert existing.Some? ==> ServesOneOf(rules[existing.value.0], {id});
    }
  }

  lemma LostOrKept(before: RuleTable, after: RuleTable, id: Identity, existing: Option<(string, ForwardingRule)>)
    requires IsFoundRule(before, existing, id)
    requires after == before || (existing.Some? && after == Without(before, existing.value.0))
    ensures OthersKept(before, after, {id})
  {
    if after != before {
      assert ServesOneOf(before[existing.value.0], {id});
    }
  }

  lemma Widen(before: RuleTable, after: RuleTable, some: set<Identity>, more: set<Identity>)
    requires OthersKept(before, after, some) && some <= more
    ensures OthersKept(before, after, more)
  {
    forall r | !ServesOneOf(r, more) ensures !ServesOneOf(r, some) {
    }
  }

  /** The first `i` endpoints are attached and answered for; nothing else has changed. */
  ghost predicate DoneAt(rules: RuleTable, before: seq<Record>, now: RuleTable, saved: seq<Record>, peer: string, service: string,
                         endpoints: seq<Endpoint>, i: nat, enabled: seq<AccessEndpoint>)
    requires i <= |endpoints|
  {
    RecordsKept(before, saved, IdsOf(peer, service, endpoints[..i]))
    && OthersKept(rules, now, IdsOf(peer, service, endpoints[..i]))
    && |enabled| == i
    && (forall j :: 0 <= j < i ==> enabled[j].host == LOCALHOST && endpoints[j] == Endpoint(enabled[j].name, enabled[j].protocol))
    && (DistinctNames(endpoints) ==>
          forall j :: 0 <= j < i ==> Attached(now, saved, IdOf(peer, service, endpoints[j]), endpoints[j].protocol))
    && (DistinctNames(endpoints) ==> PortsSaved(saved, peer, service, endpoints, i, enabled))
  }

  ghost predicate PortsSaved(saved: seq<Record>, peer: string, service: string, endpoints: seq<Endpoint>, i: nat,
                             enabled: seq<AccessEndpoint>)
    requires i <= |endpoints| && i <= |enabled|
  {
    forall j :: 0 <= j < i ==>
      Find(saved, IdOf(peer, service, endpoints[j])).Some?
      && Find(saved, IdOf(peer, service, endpoints[j])).value.port == enabled[j].port
  }

  lemma TurnAdvances(rules: RuleTable, first: seq<Record>, now: RuleTable, saved: seq<Record>,
                     peer: string, service: string, endpoints: seq<Endpoint>, i: nat,
                     enabled: seq<AccessEndpoint>, mid: RuleTable, before: seq<Record>, record: Record)
    requires i < |endpoints| && DoneAt(rules, first, mid, before, peer, service, endpoints, i, enabled)
    requires UniqueIdentities(before) && saved == Upsert(before, record)
    requires record.id == IdOf(peer, service, endpoints[i]) && OthersKept(mid, now, {record.id})
    requires ServedBy(now, record.id, LOCALHOST, record.port, endpoints[i].protocol)
    ensures DoneAt(rules, first, now, saved, peer, service, endpoints, i + 1,
                   enabled + [AccessEndpoint(endpoints[i].name, endpoints[i].protocol, LOCALHOST, record.port)])
  {
    forall other ensures Find(saved, other) == if other == record.id then Some(record) else Find(before, other) {
      UpsertThenFind(before, record, other);
    }
    OneMoreId(peer, service, endpoints, i);
    OthersKeptTrans(rules, mid, now, IdsOf(peer, service, endpoints[..i]), record.id);
    SurvivesAll(mid, now, before, saved, peer, service, endpoints, i);
    PortsSurvive(before, saved, peer, service, endpoints, i, enabled, record);
  }

  lemma TurnStops(rules: RuleTable, first: seq<Record>, now: RuleTable, saved: seq<Record>,
                  peer: string, service: string, endpoints: seq<Endpoint>, i: nat,
                  enabled: seq<AccessEndpoint>, mid: RuleTable)
    requires i < |endpoints| && DoneAt(rules, first, mid, saved, peer, service, endpoints, i, enabled)
    requires OthersKept(mid, now, {IdOf(peer, service, endpoints[i])})
    ensures OthersKept(rules, now, IdsOf(peer, service, endpoints))
    ensures DistinctNames(endpoints) ==>
              forall j :: 0 <= j < i ==> Attached(now, saved, IdOf(peer, service, endpoints[j]), endpoints[j].protocol)
  {
    OneMoreId(peer, service, endpoints, i);
    OthersKeptTrans(rules, mid, now, IdsOf(peer, service, endpoints[..i]), IdOf(peer, service, endpoints[i]));
    Widen(rules, now, IdsOf(peer, service, endpoints[..i + 1]), IdsOf(peer, service, endpoints));
    SurvivesAll(mid, now, saved, saved, peer, service, endpoints, i);
  }

  lemma PortsSurvive(before: seq<Record>, saved: seq<Record>, peer: string, service: string, endpoints: seq<Endpoint>, i: nat,
                     enabled: seq<AccessEndpoint>, record: Record)
    requires i < |endpoints| && i == |enabled|
    requires DistinctNames(endpoints) ==> PortsSaved(before, peer, service, endpoints, i, enabled)
    requires forall other :: Find(saved, other) == if other == IdOf(peer, service, endpoints[i]) then Some(record) else Find(before, other)
    ensures DistinctNames(endpoints) ==>
              PortsSaved(saved, peer, service, endpoints, i + 1,
                         enabled + [AccessEndpoint(endpoints[i].name, endpoints[i].protocol, LOCALHOST, record.port)])
  {
  }

  lemma OneMoreId(peer: string, service: string, endpoints: seq<Endpoint>, i: nat)
    requires i < |endpoints|
    ensures IdsOf(peer, service, endpoints[..i + 1]) == IdsOf(peer, service, endpoints[..i]) + {IdOf(peer, service, endpoints[i])}
    ensures IdsOf(peer, service, endpoints[..i + 1]) <= IdsOf(peer, service, endpoints)
  {
    assert endpoints[..i + 1] == endpoints[..i] + [endpoints[i]];
  }

  lemma SurvivesAll(before: RuleTable, after: RuleTable, saved: seq<Record>, saved': seq<Record>,
                    peer: string, service: string, endpoints: seq<Endpoint>, i: nat)
    requires i < |endpoints| && OthersKept(before, after, {IdOf(peer, service, endpoints[i])})
    requires forall other :: other != IdOf(peer, service, endpoints[i]) ==> Find(saved', other) == Find(saved, other)
    requires DistinctNames(endpoints) ==>
               forall j :: 0 <= j < i ==> Attached(before, saved, IdOf(peer, service, endpoints[j]), endpoints[j].protocol)
    ensures DistinctNames(endpoints) ==>
              forall j :: 0 <= j < i ==> Attached(after, saved', IdOf(peer, service, endpoints[j]), endpoints[j].protocol)
  {
    if DistinctNames(endpoints) {
      forall j | 0 <= j < i ensures Attached(after, saved', IdOf(peer, service, endpoints[j]), endpoints[j].protocol) {
        AttachedSurvives(before, after, saved, saved', IdOf(peer, service, endpoints[j]), endpoints[j].protocol,
                         IdOf(peer, service, endpoints[i]));
      }
    }
  }

  /** The ports of the rules and of the records. */
  function PortsInUse(rules: RuleTable, records: seq<Record>): set<U16> {
    (set r <- records :: r.port) + (set k <- rules :: rules[k].port)
  }

  function GivenPorts(enabled: seq<AccessEndpoint>): set<U16> {
    set e <- enabled :: e.port
  }

  lemma PortsAtFirst(active: Listing, rules: RuleTable, records: seq<Record>)
    requires Lists(active, rules)
    ensures (set r <- records :: r.port) + (set a <- active :: a.1.port) <= PortsInUse(rules, records) + GivenPorts([])
  {
  }

  lemma GivenPortsGrow(enabled: seq<AccessEndpoint>, e: AccessEndpoint)
    ensures GivenPorts(enabled + [e]) == GivenPorts(enabled) + {e.port}
  {
    assert forall x <- enabled + [e] :: x in enabled || x == e;
    assert forall x <- enabled :: x in enabled + [e];
    assert e in enabled + [e];
  }

  lemma GivenPortsSaved(saved: seq<Record>, peer: string, service: string, endpoints: seq<Endpoint>, i: nat,
                        enabled: seq<AccessEndpoint>, rules: RuleTable)
    requires i <= |endpoints| && i == |enabled| && PortsSaved(saved, peer, service, endpoints, i, enabled)
    ensures GivenPorts(enabled) <= PortsInUse(rules, saved)
  {
    forall e | e in enabled ensures e.port in PortsInUse(rules, saved) {
      var j :| 0 <= j < i && enabled[j] == e;
      FindIsMember(saved, IdOf(peer, service, endpoints[j]));
    }
  }

  /** What has been done for the endpoints at these places, in the fields of the rules. */
  lemma AttachedIsReturned(rules: RuleTable, before: seq<Record>, now: RuleTable, saved: seq<Record>, peer: string, service: string,
                           endpoints: seq<Endpoint>, at: seq<nat>, enabled: seq<AccessEndpoint>)
    requires (forall j :: 0 <= j < |at| ==> at[j] < |endpoints|) && (forall j, k :: 0 <= j < k < |at| ==> at[j] < at[k])
    requires DoneAt(rules, before, now, saved, peer, service, Taken(endpoints, at), |at|, enabled)
    ensures |enabled| == |at|
    ensures forall j :: 0 <= j < |at| ==>
              enabled[j].name == endpoints[at[j]].name && enabled[j].protocol == endpoints[at[j]].protocol
    ensures DistinctNames(endpoints) ==>
              forall e <- enabled :: exists k <- now ::
                var rule := now[k];
                rule.peer == peer && rule.service == Some(service) && rule.entry == Some(e.name)
                && rule.host == "127.0.0.1" && rule.port == e.port && rule.protocol == Some(e.protocol)
  {
    var taken := Taken(endpoints, at);
    TakenAt(endpoints, at);
    forall j | 0 <= j < |at| ensures enabled[j].name == endpoints[at[j]].name && enabled[j].protocol == endpoints[at[j]].protocol {
      assert taken[j] == Endpoint(enabled[j].name, enabled[j].protocol);
    }
    if DistinctNames(endpoints) {
      assert DistinctNames(taken);
      forall e | e in enabled ensures exists k <- now ::
          var rule := now[k];
          rule.peer == peer && rule.service == Some(service) && rule.entry == Some(e.name)
          && rule.host == "127.0.0.1" && rule.port == e.port && rule.protocol == Some(e.protocol)
      {
        var j :| 0 <= j < |at| && enabled[j] == e;
        assert Attached(now, saved, IdOf(peer, service, taken[j]), taken[j].protocol);
      }
    }
  }

  /** Endpoints of one name stay as they are when they are sorted by name. */
  lemma OneNameStays(enabled: seq<AccessEndpoint>, name: string)
    requires forall j :: 0 <= j < |enabled| ==> enabled[j].name == name
    ensures Sorting.Sort(NameLeq, enabled) == enabled
  {
    Text.LeqReflexive(name);
    Sorting.SortOfSorted(NameLeq, enabled);
  }

  lemma SortedByName(enabled: seq<AccessEndpoint>)
    ensures Sorting.Sorted(NameLeq, Sorting.Sort(NameLeq, enabled))
    ensures multiset(Sorting.Sort(NameLeq, enabled)) == multiset(enabled)
    ensures |Sorting.Sort(NameLeq, enabled)| == |enabled|
  {
    assert Sorting.TotalPreorder(NameLeq) by {
      forall a, b ensures NameLeq(a, b) || NameLeq(b, a) { Text.LeqTotal(a.name, b.name); }
      forall a, b, c | NameLeq(a, b) && NameLeq(b, c) ensures NameLeq(a, c) { Text.LeqTransitive(a.name, b.name, c.name); }
    }
    Sorting.SortSorts(NameLeq, enabled);
    Sorting.SortPermutes(NameLeq, enabled);
    assert |Sorting.Sort(NameLeq, enabled)| == |multiset(enabled)|;
  }
}
