/**
 * Service accesses under concurrency. Any number of calls run at once; `detach` is synchronous and
 * takes no lock, the others hold the `operations` lock from their second step to their return.
 * Every step is one critical section of the source: one use of the rule table, of the set of
 * detached marks, or of the preference file.
 */
module AccessProtocol {
  import opened Wrappers
  import opened Widths
  import opened LocalPreferences
  import opened Forwarding
  import opened AccessPlan

  type Pid = nat

  /** A call; an attach carries the endpoints its entry filter selects. */
  datatype Call =
    | Detach(peer: string, service: string)
    | ForgetService(peer: string, service: string)
    | ForgetDevice(peer: string)
    | Restore(candidate: Identity, protocol: string)
    | Attach(peer: string, service: string, endpoints: seq<Endpoint>, port: Option<U16>)

  datatype Pc =
    | Start
    | ReadPrefs
    | Mark
    | Scan
    | Sweep(ids: seq<string>)
    | Erase
    | CheckMark
    | ReadRecord
    | FindRule(record: Record)
    | ListRules
    | NextEndpoint
    | RemoveOld(job: Job)
    | StartRule(job: Job)
    | Save(job: Job, started: Option<string>)
    | UndoStart(job: Job, id: string)
    | Relist
    | ClearMark
    | RestoreOld(rule: ForwardingRule)
    | ReAdd(rule: ForwardingRule)
    | Recheck(id: string, key: (string, string), ok: bool)
    | Revoke(id: string, ok: bool)
    | Returned(ok: bool)

  datatype Vars = Vars(prefs: seq<Record>, active: RuleTable, reserved: set<U16>, todo: seq<Endpoint>)

  datatype Proc = Proc(call: Call, pc: Pc, vars: Vars)

  datatype State = State(
    rules: RuleTable, saved: seq<Record>, detached: set<(string, string)>, lock: Option<Pid>, procs: map<Pid, Proc>)

  /** What the environment decides in a step: success of an I/O call, list orders, free ports. */
  datatype Choice = Choice(ok: bool, ids: seq<string>, found: Option<(string, ForwardingRule)>, free: Option<U16>)

  datatype Event = Invoke(pid: Pid, call: Call) | Step(pid: Pid, choice: Choice)

  // ---------- steps ----------

  /** The step changes its own process and no other, and keeps the lock until it returns. */
  ghost predicate OnlyMe(s: State, me: Pid, t: State) {
    me in s.procs && me in t.procs && t.procs[me].call == s.procs[me].call
    && t.procs == s.procs[me := t.procs[me]]
    && t.lock == if t.procs[me].pc.Returned? && !s.procs[me].call.Detach? then None else s.lock
  }

  function Goto(s: State, me: Pid, pc: Pc): State
    requires me in s.procs
  {
    s.(procs := s.procs[me := s.procs[me].(pc := pc)])
  }

  function GotoWith(s: State, me: Pid, pc: Pc, vars: Vars): State
    requires me in s.procs
  {
    s.(procs := s.procs[me := s.procs[me].(pc := pc, vars := vars)])
  }

  /** Returning drops the lock guard of every call that took one. */
  function Finish(s: State, me: Pid, ok: bool): (t: State)
    requires me in s.procs
    ensures OnlyMe(s, me, t)
  {
    Goto(s, me, Returned(ok)).(lock := if s.procs[me].call.Detach? then s.lock else None)
  }

  /** The rules and records a call is about. */
  function Scope(call: Call): (string, Option<string>) {
    match call
    case Detach(peer, service) => (peer, Some(service))
    case ForgetService(peer, service) => (peer, Some(service))
    case ForgetDevice(peer) => (peer, None)
    case Restore(candidate, _) => (candidate.peer, Some(candidate.service))
    case Attach(peer, service, _, _) => (peer, Some(service))
  }

  predicate RuleInScope(r: ForwardingRule, scope: (string, Option<string>)) {
    OfService(r, scope.0, scope.1)
  }

  predicate RecordInScope(r: Record, scope: (string, Option<string>)) {
    r.id.peer == scope.0 && (scope.1.Some? ==> r.id.service == scope.1.value)
  }

  /** `found` is a possible answer of `find_active_rule` on the table. */
  ghost predicate IsFound(rules: RuleTable, id: Identity, found: Option<(string, ForwardingRule)>) {
    match found
    case None => forall k <- rules :: !Serves(rules[k], id)
    case Some(f) => f.0 in rules && rules[f.0] == f.1 && Serves(f.1, id)
  }

  /** `ids` lists, in some order, the rules `remove_matching_rules` selects. */
  ghost predicate IsScan(rules: RuleTable, scope: (string, Option<string>), ids: seq<string>) {
    (forall id :: id in ids <==> id in rules && RuleInScope(rules[id], scope))
    && (forall i, j :: 0 <= i < j < |ids| ==> ids[i] != ids[j])
  }

  function PortsOf(prefs: seq<Record>, rules: RuleTable): set<U16> {
    (set r <- prefs :: r.port) + (set id <- rules :: rules[id].port)
  }

  function Begin(s: State, me: Pid): Option<State>
    requires me in s.procs
  {
    match s.procs[me].call
    case Detach(peer, service) =>
      Some(Goto(s.(detached := s.detached + {(peer, service)}), me, Scan))
    case _ =>
      if s.lock.Some? then None
      else
        var first := match s.procs[me].call
          case ForgetService(_, _) => Mark
          case Restore(_, _) => CheckMark
          case _ => ReadPrefs;
        Some(Goto(s.(lock := Some(me)), me, first))
  }

  function DoReadPrefs(s: State, me: Pid, c: Choice): (t: State)
    requires me in s.procs
    ensures OnlyMe(s, me, t)
  {
    if !c.ok then Finish(s, me, false)
    else GotoWith(s, me, if s.procs[me].call.ForgetDevice? then Mark else ListRules,
                  s.procs[me].vars.(prefs := s.saved))
  }

  function DoMark(s: State, me: Pid): (t: State)
    requires me in s.procs
    ensures OnlyMe(s, me, t)
  {
    var p := s.procs[me];
    var marks := match p.call
      case ForgetDevice(peer) => ServicesOf(p.vars.prefs, peer)
      case _ => {(Scope(p.call).0, if Scope(p.call).1.Some? then Scope(p.call).1.value else "")};
    Goto(s.(detached := s.detached + marks), me, Scan)
  }

  ghost function DoScan(s: State, me: Pid, c: Choice): (t: Option<State>)
    requires me in s.procs
    ensures t.Some? ==> OnlyMe(s, me, t.value)
  {
    if IsScan(s.rules, Scope(s.procs[me].call), c.ids) then Some(Goto(s, me, Sweep(c.ids))) else None
  }

  function DoSweep(s: State, me: Pid, ids: seq<string>): (t: State)
    requires me in s.procs
    ensures OnlyMe(s, me, t)
  {
    if ids == [] then
      if s.procs[me].call.Detach? then Finish(s, me, true) else Goto(s, me, Erase)
    else if ids[0] !in s.rules then Finish(s, me, false)
    else Goto(s.(rules := Without(s.rules, ids[0])), me, Sweep(ids[1..]))
  }

  function DoErase(s: State, me: Pid, c: Choice): (t: State)
    requires me in s.procs
    ensures OnlyMe(s, me, t)
  {
    if !c.ok then Finish(s, me, false)
    else
      var kept := match s.procs[me].call
        case ForgetDevice(peer) => WithoutDevice(s.procs[me].vars.prefs, peer)
        case ForgetService(peer, service) => WithoutService(s.saved, peer, service)
        case _ => s.saved;
      Finish(s.(saved := kept), me, true)
  }

  function DoCheckMark(s: State, me: Pid): (t: State)
    requires me in s.procs
    ensures OnlyMe(s, me, t)
  {
    var scope := Scope(s.procs[me].call);
    if scope.1.Some? && (scope.0, scope.1.value) in s.detached then Finish(s, me, true) else Goto(s, me, ReadRecord)
  }

  function DoReadRecord(s: State, me: Pid, c: Choice): (t: State)
    requires me in s.procs && s.procs[me].call.Restore?
    ensures OnlyMe(s, me, t)
  {
    if !c.ok then Finish(s, me, false)
    else match Find(s.saved, s.procs[me].call.candidate)
      case None => Finish(s, me, true)
      case Some(record) => Goto(s, me, FindRule(record))
  }

  ghost function DoFindRule(s: State, me: Pid, c: Choice, record: Record): (t: Option<State>)
    requires me in s.procs && s.procs[me].call.Restore?
    ensures t.Some? ==> OnlyMe(s, me, t.value)
  {
    var protocol := s.procs[me].call.protocol;
    if !IsFound(s.rules, record.id, c.found) then None
    else if c.found.None? then Some(Goto(s, me, StartRule(Job(record, protocol, false, None))))
    else
      var rule := c.found.value.1;
      if rule.host == record.host && rule.port == record.port && rule.protocol == Some(protocol)
      then Some(Finish(s, me, true))
      else Some(Goto(s, me, RemoveOld(Job(record, protocol, false, c.found))))
  }

  function DoListRules(s: State, me: Pid): (t: State)
    requires me in s.procs
    ensures OnlyMe(s, me, t)
  {
    var v := s.procs[me].vars;
    var todo := if s.procs[me].call.Attach? then s.procs[me].call.endpoints else [];
    GotoWith(s, me, NextEndpoint, v.(active := s.rules, reserved := PortsOf(v.prefs, s.rules), todo := todo))
  }

  ghost function DoNextEndpoint(s: State, me: Pid, c: Choice): (t: Option<State>)
    requires me in s.procs && s.procs[me].call.Attach?
    ensures t.Some? ==> OnlyMe(s, me, t.value)
  {
    var p := s.procs[me];
    if p.vars.todo == [] then Some(Goto(s, me, ClearMark))
    else
      var endpoint := p.vars.todo[0];
      var id := Identity(p.call.peer, p.call.service, endpoint.name);
      if !IsFound(p.vars.active, id, c.found) then None
      else
        match PlanEndpoint(p.vars.prefs, p.vars.reserved, c.found, id, endpoint.protocol, p.call.port, c.free, c.ok)
        case Err => Some(Finish(s, me, false))
        case Ok(plan) =>
          var next := if plan.job.matches then Save(plan.job, None)
                      else if plan.job.displaced.Some? then RemoveOld(plan.job)
                      else StartRule(plan.job);
          Some(GotoWith(s, me, next, p.vars.(reserved := plan.reserved)))
  }

  function DoRemoveOld(s: State, me: Pid, job: Job): (t: State)
    requires me in s.procs && job.displaced.Some?
    ensures OnlyMe(s, me, t)
  {
    var id := job.displaced.value.0;
    if id !in s.rules then Finish(s, me, false)
    else Goto(s.(rules := Without(s.rules, id)), me, StartRule(job))
  }

  function DoStartRule(s: State, me: Pid, c: Choice, job: Job): (t: State)
    requires me in s.procs
    ensures OnlyMe(s, me, t)
  {
    var rule := RuleFor(job.record, job.protocol);
    var id := RuleId(rule);
    if c.ok && IsServiceAccessRule(rule) && id !in s.rules then
      var next := if s.procs[me].call.Restore? then Recheck(id, (job.record.id.peer, job.record.id.service), true)
                  else Save(job, Some(id));
      Goto(s.(rules := s.rules[id := rule]), me, next)
    else GiveBack(s, me, job)
  }

  /** After a failure: put the displaced rule back if there was one. */
  function GiveBack(s: State, me: Pid, job: Job): (t: State)
    requires me in s.procs
    ensures OnlyMe(s, me, t)
  {
    if job.displaced.Some? then Goto(s, me, RestoreOld(job.displaced.value.1)) else Finish(s, me, false)
  }

  function DoSave(s: State, me: Pid, c: Choice, job: Job, started: Option<string>): (t: State)
    requires me in s.procs
    ensures OnlyMe(s, me, t)
  {
    var v := s.procs[me].vars;
    if c.ok then
      var updated := Upsert(v.prefs, job.record);
      GotoWith(s.(saved := updated), me, if job.matches then NextEndpoint else Relist,
               v.(prefs := updated, reserved := v.reserved + {job.record.port},
                  todo := if v.todo == [] then [] else v.todo[1..]))
    else if started.Some? then Goto(s, me, UndoStart(job, started.value))
    else GiveBack(s, me, job.(displaced := None))
  }

  function DoUndoStart(s: State, me: Pid, job: Job, id: string): (t: State)
    requires me in s.procs
    ensures OnlyMe(s, me, t)
  {
    GiveBack(s.(rules := Without(s.rules, id)), me, job)
  }

  function DoRelist(s: State, me: Pid): (t: State)
    requires me in s.procs
    ensures OnlyMe(s, me, t)
  {
    GotoWith(s, me, NextEndpoint, s.procs[me].vars.(active := s.rules))
  }

  function DoClearMark(s: State, me: Pid): (t: State)
    requires me in s.procs && s.procs[me].call.Attach?
    ensures OnlyMe(s, me, t)
  {
    Finish(s.(detached := s.detached - {(s.procs[me].call.peer, s.procs[me].call.service)}), me, true)
  }

  function DoRestoreOld(s: State, me: Pid, rule: ForwardingRule): (t: State)
    requires me in s.procs
    ensures OnlyMe(s, me, t)
  {
    if rule.service.None? || (rule.peer, rule.service.value) in s.detached then Finish(s, me, false)
    else Goto(s, me, ReAdd(rule))
  }

  function DoReAdd(s: State, me: Pid, c: Choice, rule: ForwardingRule): (t: State)
    requires me in s.procs && rule.service.Some?
    ensures OnlyMe(s, me, t)
  {
    var id := RuleId(rule);
    if c.ok && id !in s.rules
    then Goto(s.(rules := s.rules[id := rule]), me, Recheck(id, (rule.peer, rule.service.value), false))
    else Finish(s, me, false)
  }

  function DoRecheck(s: State, me: Pid, id: string, key: (string, string), ok: bool): (t: State)
    requires me in s.procs
    ensures OnlyMe(s, me, t)
  {
    if key in s.detached then Goto(s, me, Revoke(id, ok)) else Finish(s, me, ok)
  }

  function DoRevoke(s: State, me: Pid, id: string, ok: bool): (t: State)
    requires me in s.procs
    ensures OnlyMe(s, me, t)
  {
    Finish(s.(rules := Without(s.rules, id)), me, ok)
  }

  /** Steps of removers, and every call's first. */
  ghost function CollectStep(s: State, me: Pid, c: Choice): Option<State>
    requires me in s.procs
  {
    match s.procs[me].pc
    case Start => Begin(s, me)
    case ReadPrefs => Some(DoReadPrefs(s, me, c))
    case Mark => Some(DoMark(s, me))
    case Scan => DoScan(s, me, c)
    case Sweep(ids) => Some(DoSweep(s, me, ids))
    case Erase => Some(DoErase(s, me, c))
    case _ => None
  }

  /** Steps of restoring a listener; an attach shares those that put a displaced rule back. */
  ghost function RestoreStep(s: State, me: Pid, c: Choice): Option<State>
    requires me in s.procs
  {
    var restoring := s.procs[me].call.Restore?;
    match s.procs[me].pc
    case CheckMark => Some(DoCheckMark(s, me))
    case ReadRecord => if restoring then Some(DoReadRecord(s, me, c)) else None
    case FindRule(record) => if restoring then DoFindRule(s, me, c, record) else None
    case RestoreOld(rule) => Some(DoRestoreOld(s, me, rule))
    case ReAdd(rule) => if rule.service.Some? then Some(DoReAdd(s, me, c, rule)) else None
    case Recheck(id, key, ok) => Some(DoRecheck(s, me, id, key, ok))
    case Revoke(id, ok) => Some(DoRevoke(s, me, id, ok))
    case _ => None
  }

  /** Steps of attaching; a restore shares the replacement of a rule. */
  ghost function AttachStep(s: State, me: Pid, c: Choice): Option<State>
    requires me in s.procs
  {
    var attaching := s.procs[me].call.Attach?;
    match s.procs[me].pc
    case ListRules => Some(DoListRules(s, me))
    case NextEndpoint => if attaching then DoNextEndpoint(s, me, c) else None
    case RemoveOld(job) => if job.displaced.Some? then Some(DoRemoveOld(s, me, job)) else None
    case StartRule(job) => Some(DoStartRule(s, me, c, job))
    case Save(job, started) => Some(DoSave(s, me, c, job, started))
    case UndoStart(job, id) => Some(DoUndoStart(s, me, job, id))
    case Relist => Some(DoRelist(s, me))
    case ClearMark => if attaching then Some(DoClearMark(s, me)) else None
    case _ => None
  }

  predicate Collects(pc: Pc) {
    pc.Start? || pc.ReadPrefs? || pc.Mark? || pc.Scan? || pc.Sweep? || pc.Erase?
  }

  predicate Restores(pc: Pc) {
    pc.CheckMark? || pc.ReadRecord? || pc.FindRule? || pc.RestoreOld? || pc.ReAdd? || pc.Recheck? || pc.Revoke?
  }

  /** One step of a running call; `None` when it is blocked, has returned, or the choice is impossible. */
  ghost function StepOf(s: State, me: Pid, c: Choice): Option<State>
    requires me in s.procs
  {
    if Collects(s.procs[me].pc) then CollectStep(s, me, c)
    else if Restores(s.procs[me].pc) then RestoreStep(s, me, c)
    else AttachStep(s, me, c)
  }

  lemma BeginTouchesOnlyMe(s: State, me: Pid, t: State)
    requires me in s.procs && Begin(s, me) == Some(t)
    ensures me in t.procs && t.procs[me].call == s.procs[me].call && t.procs == s.procs[me := t.procs[me]]
  {
  }

  lemma StepTouchesOnlyMe(s: State, me: Pid, c: Choice, t: State)
    requires me in s.procs && StepOf(s, me, c) == Some(t)
    ensures me in t.procs && t.procs[me].call == s.procs[me].call && t.procs == s.procs[me := t.procs[me]]
    ensures !s.procs[me].pc.Start? ==> OnlyMe(s, me, t)
  {
    if s.procs[me].pc.Start? { BeginTouchesOnlyMe(s, me, t); }
  }

  ghost predicate Next(s: State, e: Event, t: State) {
    match e
    case Invoke(pid, call) =>
      pid !in s.procs && t == s.(procs := s.procs[pid := Proc(call, Start, Vars([], map[], {}, []))])
    case Step(pid, choice) =>
      pid in s.procs && StepOf(s, pid, choice) == Some(t)
  }

  /** No call has been made yet; a daemon starts with an empty table and no marks. */
  ghost predicate Initial(s: State) {
    s.procs == map[] && s.lock.None? && AtMostOneEach(s.rules) && WellFormed(s.saved)
  }

  ghost predicate IsRun(run: seq<State>, events: seq<Event>) {
    |run| == |events| + 1 && Initial(run[0])
    && forall i: nat :: i < |events| ==> Follows(run, events, i)
  }

  ghost predicate Follows(run: seq<State>, events: seq<Event>, i: nat)
    requires i < |events| < |run|
  {
    Next(run[i], events[i], run[i + 1])
  }
}
