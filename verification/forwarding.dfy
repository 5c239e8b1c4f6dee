/** Forwarding rules and the table of active ones. */
module Forwarding {
  import opened Wrappers
  import opened Widths
  import opened LocalPreferences

  datatype ForwardingRule = ForwardingRule(
    host: string, port: U16, peer: string, protocol: Option<string>, remotePort: Option<U16>,
    service: Option<string>, entry: Option<string>)

  type RuleTable = map<string, ForwardingRule>

  function Decimal(n: nat): string {
    var digit := ['0' + (n % 10) as char];
    if n < 10 then digit else Decimal(n / 10) + digit
  }

  /** The number that decimal digits stand for. */
  function ValueOf(digits: string): nat {
    if digits == "" then 0
    else
      var c := digits[|digits| - 1];
      10 * ValueOf(digits[..|digits| - 1]) + if '0' <= c <= '9' then c as nat - '0' as nat else 0
  }

  lemma {:induction false} DecimalReads(n: nat)
    ensures Decimal(n) != "" && (forall c <- Decimal(n) :: '0' <= c <= '9') && ValueOf(Decimal(n)) == n
    decreases n
  {
    if n >= 10 {
      DecimalReads(n / 10);
      assert Decimal(n)[..|Decimal(n)| - 1] == Decimal(n / 10);
    }
  }

  predicate IsAsciiAlphanumeric(c: char) {
    '0' <= c <= '9' || 'a' <= c <= 'z' || 'A' <= c <= 'Z'
  }

  function Sanitize(value: string): string {
    seq(|value|, i requires 0 <= i < |value| =>
      if IsAsciiAlphanumeric(value[i]) || value[i] in "-_." then value[i] else '_')
  }

  /** `generate_forwarding_rule_id`: a function of host, port, peer and target; not of the service. */
  function RuleId(r: ForwardingRule): string {
    "forward_" + r.host + ":" + Decimal(r.port) + "_to_" + r.peer + "_"
    + match r.protocol {
        case Some(protocol) => Sanitize(protocol)
        case None => match r.remotePort {
          case Some(port) => Decimal(port)
          case None => "missing-target"
        }
      }
  }

  /** Rules on one address have different ids on different ports: no two listeners of one address are taken for each other. */
  lemma RuleIdSeparatesPorts(a: ForwardingRule, b: ForwardingRule)
    requires a.host == b.host && RuleId(a) == RuleId(b)
    ensures a.port == b.port
  {
    hide Decimal, Sanitize, ValueOf;
    var before := "forward_" + a.host + ":";
    DecimalReads(a.port);
    DecimalReads(b.port);
    var afterA, afterB := RuleId(a)[|before| + |Decimal(a.port)| + 1..], RuleId(b)[|before| + |Decimal(b.port)| + 1..];
    assert RuleId(a) == before + (Decimal(a.port) + "_" + afterA);
    assert RuleId(b) == before + (Decimal(b.port) + "_" + afterB);
    assert RuleId(a)[|before|..] == Decimal(a.port) + "_" + afterA && RuleId(b)[|before|..] == Decimal(b.port) + "_" + afterB;
    DigitsEnd(Decimal(a.port), afterA, Decimal(b.port), afterB);
    DigitsEnd(Decimal(b.port), afterB, Decimal(a.port), afterA);
  }

  lemma DigitsEnd(x: string, u: string, y: string, v: string)
    requires (forall c <- x :: '0' <= c <= '9') && (forall c <- y :: '0' <= c <= '9') && x + "_" + u == y + "_" + v
    ensures |x| >= |y|
    ensures |x| == |y| ==> x == y
  {
    var whole := x + "_" + u;
    assert whole[..|x|] == x && whole[..|y|] == y && whole[|x|] == '_';
    forall k | 0 <= k < |y| ensures whole[k] != '_' {
      assert whole[k] == y[k] && y[k] in y;
    }
  }

  /** What in a protocol is as good as an underscore in an id: all but ASCII digits, letters, the hyphen and the dot. */
  predicate IsBlurred(c: char) {
    var code := c as int;
    !(48 <= code <= 57 || 65 <= code <= 90 || 97 <= code <= 122 || code == 45 || code == 46)
  }

  predicate LookAlike(p: string, q: string) {
    |p| == |q| && forall i :: 0 <= i < |p| ==> p[i] == q[i] || (IsBlurred(p[i]) && IsBlurred(q[i]))
  }

  /** Rules of one peer on one address have the same id if and only if they have the same port and protocols that look alike. */
  lemma RuleIdTells(a: ForwardingRule, b: ForwardingRule)
    requires a.host == b.host && a.peer == b.peer && a.protocol.Some? && b.protocol.Some?
    ensures RuleId(a) == RuleId(b) <==> a.port == b.port && LookAlike(a.protocol.value, b.protocol.value)
  {
    hide Decimal, Sanitize, LookAlike;
    SanitizeFields(a.protocol.value, b.protocol.value);
    if a.port == b.port {
      var before := "forward_" + a.host + ":" + Decimal(a.port) + "_to_" + a.peer + "_";
      assert RuleId(a)[|before|..] == Sanitize(a.protocol.value) && RuleId(b)[|before|..] == Sanitize(b.protocol.value);
      assert RuleId(a) == before + Sanitize(a.protocol.value) && RuleId(b) == before + Sanitize(b.protocol.value);
    } else if RuleId(a) == RuleId(b) {
      RuleIdSeparatesPorts(a, b);
    }
  }

  lemma SanitizeFields(p: string, q: string)
    ensures Sanitize(p) == Sanitize(q) <==> LookAlike(p, q)
  {
    var s, t := Sanitize(p), Sanitize(q);
    SanitizeAt(p);
    SanitizeAt(q);
    hide IsBlurred, Sanitize;
    Blurs('_');
    if s == t {
      forall i | 0 <= i < |p| ensures p[i] == q[i] || (IsBlurred(p[i]) && IsBlurred(q[i])) {
        assert s[i] == t[i];
      }
    }
  }

  lemma SanitizeAt(p: string)
    ensures |Sanitize(p)| == |p| && forall i :: 0 <= i < |p| ==> Sanitize(p)[i] == if IsBlurred(p[i]) then '_' else p[i]
  {
    forall i | 0 <= i < |p| ensures Sanitize(p)[i] == if IsBlurred(p[i]) then '_' else p[i] {
      Blurs(p[i]);
    }
  }

  lemma Blurs(c: char)
    ensures IsBlurred(c) <==> !(IsAsciiAlphanumeric(c) || c in "-.")
    ensures IsBlurred('_')
  {
  }

  predicate HasTarget(r: ForwardingRule) {
    r.protocol.Some? || r.remotePort.Some?
  }

  /** The rule forwards to this service entry: the test of `find_active_rule`. */
  predicate Serves(r: ForwardingRule, id: Identity) {
    r.peer == id.peer && r.service == Some(id.service) && r.entry == Some(id.entry)
  }

  /** The test of `remove_matching_rules`. */
  predicate OfService(r: ForwardingRule, peer: string, service: Option<string>) {
    r.peer == peer && (service.Some? ==> r.service == service)
  }

  /** The rule `start_forwarding_rule` builds for a saved preference. */
  function RuleFor(r: Record, protocol: string): ForwardingRule {
    ForwardingRule(r.host, r.port, r.id.peer, Some(protocol), None, Some(r.id.service), Some(r.id.entry))
  }

  /** `ensure_service_access_rule`. */
  predicate IsServiceAccessRule(r: ForwardingRule) {
    r.service.Some? && r.service.value != "" && r.entry.Some? && r.entry.value != ""
  }

  /** The two rules forward to one service entry. */
  predicate SameEntry(a: ForwardingRule, b: ForwardingRule) {
    a.service.Some? && a.entry.Some? && a.peer == b.peer && a.service == b.service && a.entry == b.entry
  }

  /** No service entry has two active rules. */
  ghost predicate AtMostOneEach(rules: RuleTable) {
    forall a <- rules, b <- rules :: SameEntry(rules[a], rules[b]) ==> a == b
  }

  /** What that means for `find_active_rule`: at most one answer. */
  lemma AtMostOneServes(rules: RuleTable, id: Identity, a: string, b: string)
    requires AtMostOneEach(rules) && a in rules && b in rules && Serves(rules[a], id) && Serves(rules[b], id)
    ensures a == b
  {
    assert SameEntry(rules[a], rules[b]);
  }

  /** Every rule is filed under its own id. */
  predicate FiledById(rules: RuleTable) {
    forall id <- rules :: id == RuleId(rules[id])
  }

  function Without(rules: RuleTable, id: string): RuleTable {
    map k | k in rules && k != id :: rules[k]
  }

  type Listing = seq<(string, ForwardingRule)>

  /** The list holds exactly the table's rules, in some order. */
  ghost predicate Lists(listing: Listing, rules: RuleTable) {
    (forall i :: 0 <= i < |listing| ==> listing[i].0 in rules && rules[listing[i].0] == listing[i].1)
    && (forall id <- rules :: (id, rules[id]) in listing)
    && (forall i, j :: 0 <= i < j < |listing| ==> listing[i].0 != listing[j].0)
  }

  /** `find_active_rule`: the first listed rule of the identity. */
  function FindActive(listing: Listing, id: Identity): Option<(string, ForwardingRule)> {
    if listing == [] then None
    else if Serves(listing[0].1, id) then Some(listing[0])
    else FindActive(listing[1..], id)
  }

  lemma {:induction false} FindActiveIsListed(listing: Listing, id: Identity)
    ensures FindActive(listing, id).Some? ==>
              FindActive(listing, id).value in listing && Serves(FindActive(listing, id).value.1, id)
    ensures FindActive(listing, id).None? ==> forall x <- listing :: !Serves(x.1, id)
  {
    if listing != [] && !Serves(listing[0].1, id) {
      FindActiveIsListed(listing[1..], id);
      assert forall x <- listing :: x == listing[0] || x in listing[1..];
    }
  }

  /** The live table: `TcpTunnelingControl`, its forwarding half. */
  class TcpTunneling {
    var rules: RuleTable
    /** Whether the rule's address, peer id and protocol parse. */
    const accepts: ForwardingRule -> bool

    /** Every active rule was once accepted, and is filed under its id. */
    ghost predicate Valid()
      reads this
    {
      FiledById(rules) && (forall id <- rules :: Startable(rules[id]))
    }

    ghost predicate Startable(rule: ForwardingRule) {
      accepts(rule) && HasTarget(rule)
    }

    constructor (accepts: ForwardingRule -> bool)
      ensures Valid() && rules == map[] && this.accepts == accepts
    {
      this.accepts := accepts;
      rules := map[];
    }

    /** Fails exactly when the id is taken or the rule does not parse; then nothing changes. */
    method Add(rule: ForwardingRule) returns (r: Result<string>)
      requires Valid()
      modifies this
      ensures Valid()
      ensures r == if RuleId(rule) !in old(rules) && Startable(rule) then Ok(RuleId(rule)) else Err
      ensures rules == if r.Ok? then old(rules)[RuleId(rule) := rule] else old(rules)
      ensures r.Err? <==> RuleId(rule) in old(rules) || !accepts(rule) || (rule.protocol.None? && rule.remotePort.None?)
    {
      var id := RuleId(rule);
      if id in rules {
        return Err;
      }
      if !accepts(rule) || !HasTarget(rule) {
        return Err;
      }
      rules := rules[id := rule];
      return Ok(id);
    }

    method Remove(id: string) returns (ok: bool)
      requires Valid()
      modifies this
      ensures Valid()
      ensures ok == (id in old(rules))
      ensures rules == Without(old(rules), id)
      ensures id !in rules && (forall k :: k in rules <==> k in old(rules) && k != id) && forall k <- rules :: rules[k] == old(rules)[k]
    {
      ok := id in rules;
      rules := Without(rules, id);
    }

    /** `get_forwarding_rules`; the table is unordered, so the list may come in any order. */
    method List() returns (listing: Listing)
      ensures Lists(listing, rules)
    {
      listing := [];
      var todo := rules.Keys;
      while todo != {}
        invariant todo <= rules.Keys
        invariant Lists(listing, map id | id in rules && id !in todo :: rules[id])
        decreases |todo|
      {
        var id :| id in todo;
        listing := listing + [(id, rules[id])];
        todo := todo - {id};
      }
      assert (map id | id in rules && id !in todo :: rules[id]) == rules;
    }
  }
}
