/** What every interleaving of the access protocol keeps, and where it ends up. */
module AccessSafety {
  import opened Wrappers
  import opened Widths
  import opened LocalPreferences
  import opened Forwarding
  import opened AccessPlan
  import opened AccessProtocol
  import Text

  // ---------- the invariant ----------

  predicate Holding(p: Proc) {
    !p.call.Detach? && !p.pc.Start? && !p.pc.Returned?
  }

  ghost predicate NoneServes(rules: RuleTable, id: Identity) {
    forall k <- rules :: !Serves(rules[k], id)
  }

  ghost predicate OnlyUnder(rules: RuleTable, id: Identity, key: string) {
    forall k <- rules :: Serves(rules[k], id) ==> k == key
  }

  /** The snapshot may be stale only by rules that are gone. */
  ghost predicate Covers(active: RuleTable, rules: RuleTable) {
    AtMostOneEach(active) && forall k <- rules :: k in active && active[k] == rules[k]
  }

  ghost predicate JobOf(call: Call, job: Job, prefs: seq<Record>) {
    (match call
     case Restore(candidate, _) => job.record.id == candidate && !job.matches
     case Attach(peer, service, _, _) =>
       job.record.id.peer == peer && job.record.id.service == service && CanUpsert(prefs, job.record)
     case _ => false)
    && (job.displaced.Some? ==> Serves(job.displaced.value.1, job.record.id))
  }

  /** The local copy of the preference list is in use, and must equal the file. */
  predicate UsesCopy(p: Proc) {
    match p.call
    case ForgetDevice(_) => p.pc.Mark? || p.pc.Scan? || p.pc.Sweep? || p.pc.Erase?
    case Attach(_, _, _, _) =>
      p.pc.ListRules? || p.pc.NextEndpoint? || p.pc.RemoveOld? || p.pc.StartRule? || p.pc.Save? || p.pc.UndoStart?
      || p.pc.Relist? || p.pc.ClearMark?
    case _ => false
  }

  ghost predicate MayReturn(call: Call, rules: RuleTable, rule: ForwardingRule) {
    (call.Restore? || call.Attach?) && rule.service.Some? && rule.entry.Some?
    && Scope(call) == (rule.peer, rule.service)
    && NoneServes(rules, Identity(rule.peer, rule.service.value, rule.entry.value))
  }

  /** What the lock holder may rely on at each point, whatever a detach does meanwhile. */
  ghost predicate Knows(rules: RuleTable, saved: seq<Record>, p: Proc) {
    (UsesCopy(p) ==> p.vars.prefs == saved)
    && match p.pc
       case Start => false
       case Returned(_) => false
       case ReadPrefs => p.call.ForgetDevice? || p.call.Attach?
       case Mark => p.call.ForgetDevice? || p.call.ForgetService?
       case Scan => p.call.ForgetDevice? || p.call.ForgetService?
       case Sweep(ids) =>
         (p.call.ForgetDevice? || p.call.ForgetService?)
         && forall k <- rules :: RuleInScope(rules[k], Scope(p.call)) ==> k in ids
       case Erase =>
         (p.call.ForgetDevice? || p.call.ForgetService?)
         && forall k <- rules :: !RuleInScope(rules[k], Scope(p.call))
       case CheckMark => p.call.Restore?
       case ReadRecord => p.call.Restore?
       case FindRule(record) => p.call.Restore? && record.id == p.call.candidate && Find(saved, record.id) == Some(record)
       case ListRules => p.call.Attach?
       case NextEndpoint => p.call.Attach? && Covers(p.vars.active, rules)
       case RemoveOld(job) =>
         JobOf(p.call, job, p.vars.prefs) && !job.matches && job.displaced.Some?
         && OnlyUnder(rules, job.record.id, job.displaced.value.0)
       case StartRule(job) => JobOf(p.call, job, p.vars.prefs) && !job.matches && NoneServes(rules, job.record.id)
       case Save(job, started) =>
         p.call.Attach? && JobOf(p.call, job, p.vars.prefs)
         && (if job.matches then started.None? && Covers(p.vars.active, rules)
             else started.Some? && OnlyUnder(rules, job.record.id, started.value))
       case UndoStart(job, id) =>
         p.call.Attach? && JobOf(p.call, job, p.vars.prefs) && OnlyUnder(rules, job.record.id, id)
       case Relist => p.call.Attach?
       case ClearMark => p.call.Attach?
       case RestoreOld(rule) => MayReturn(p.call, rules, rule)
       case ReAdd(rule) => MayReturn(p.call, rules, rule)
       case Recheck(id, key, _) =>
         (p.call.Restore? || p.call.Attach?) && Scope(p.call) == (key.0, Some(key.1))
         && (id in rules ==> RuleInScope(rules[id], Scope(p.call)))
       case Revoke(id, _) =>
         (p.call.Restore? || p.call.Attach?) && (id in rules ==> RuleInScope(rules[id], Scope(p.call)))
  }

  ghost predicate Inv(s: State) {
    AtMostOneEach(s.rules) && WellFormed(s.saved)
    && (forall pid <- s.procs :: Holding(s.procs[pid]) ==> s.lock == Some(pid))
    && (forall pid <- s.procs :: s.procs[pid].call.Detach? ==>
          var pc := s.procs[pid].pc; pc.Start? || pc.Scan? || pc.Sweep? || pc.Returned?)
    && (s.lock.Some? ==>
          s.lock.value in s.procs && Holding(s.procs[s.lock.value])
          && Knows(s.rules, s.saved, s.procs[s.lock.value]))
  }

  ghost predicate Shrinks(rules: RuleTable, fewer: RuleTable) {
    forall k <- fewer :: k in rules && rules[k] == fewer[k]
  }

  lemma KnowsSurvivesRemoval(rules: RuleTable, fewer: RuleTable, saved: seq<Record>, p: Proc)
    requires Knows(rules, saved, p) && Shrinks(rules, fewer)
    ensures Knows(fewer, saved, p)
  {
  }

  lemma AddKeepsAtMostOne(rules: RuleTable, rule: ForwardingRule, id: Identity)
    requires AtMostOneEach(rules) && Serves(rule, id) && NoneServes(rules, id)
    ensures AtMostOneEach(rules[RuleId(rule) := rule])
  {
  }

  // ---------- steps of the lock holder ----------

  /** The holder moved on, or returned and dropped the lock. */
  ghost predicate Moved(s: State, me: Pid, t: State) {
    me in s.procs && me in t.procs && t.procs == s.procs[me := t.procs[me]]
    && t.procs[me].call == s.procs[me].call && !t.procs[me].call.Detach?
    && AtMostOneEach(t.rules) && WellFormed(t.saved)
    && if Holding(t.procs[me]) then t.lock == s.lock && Knows(t.rules, t.saved, t.procs[me]) else t.lock.None?
  }

  lemma MovedKeepsInv(s: State, me: Pid, t: State)
    requires Inv(s) && s.lock == Some(me) && Moved(s, me, t)
    ensures Inv(t)
  {
  }

  ghost predicate AtPc(s: State, me: Pid, pc: Pc) {
    me in s.procs && s.procs[me].pc == pc && !s.procs[me].call.Detach?
    && AtMostOneEach(s.rules) && WellFormed(s.saved) && Knows(s.rules, s.saved, s.procs[me])
  }

  lemma SweepMoves(s: State, me: Pid, ids: seq<string>)
    requires AtPc(s, me, Sweep(ids))
    ensures Moved(s, me, DoSweep(s, me, ids))
  {
    if ids != [] && ids[0] in s.rules {
      assert forall k <- Without(s.rules, ids[0]) :: k in ids ==> k in ids[1..];
    }
  }

  lemma EraseMoves(s: State, me: Pid, c: Choice)
    requires AtPc(s, me, Erase)
    ensures Moved(s, me, DoErase(s, me, c))
  {
    match s.procs[me].call {
      case ForgetDevice(peer) => DropKeepsWellFormed(s.saved, (r: Record) => r.id.peer == peer);
      case ForgetService(peer, service) =>
        DropKeepsWellFormed(s.saved, (r: Record) => r.id.peer == peer && r.id.service == service);
    }
  }

  lemma ReadRecordMoves(s: State, me: Pid, c: Choice)
    requires AtPc(s, me, ReadRecord)
    ensures Moved(s, me, DoReadRecord(s, me, c))
  {
    FindIsMember(s.saved, s.procs[me].call.candidate);
  }

  lemma FindRuleMoves(s: State, me: Pid, c: Choice, record: Record, t: State)
    requires AtPc(s, me, FindRule(record)) && DoFindRule(s, me, c, record) == Some(t)
    ensures Moved(s, me, t)
  {
    FoundIsTheOnly(s.rules, record.id, c.found);
  }

  lemma FoundIsTheOnly(rules: RuleTable, id: Identity, found: Option<(string, ForwardingRule)>)
    requires AtMostOneEach(rules) && IsFound(rules, id, found)
    ensures if found.Some? then OnlyUnder(rules, id, found.value.0) else NoneServes(rules, id)
  {
    if found.Some? {
      forall k | k in rules && Serves(rules[k], id) ensures k == found.value.0 {
        AtMostOneServes(rules, id, k, found.value.0);
      }
    }
  }

  lemma NextEndpointMoves(s: State, me: Pid, c: Choice, t: State)
    requires AtPc(s, me, NextEndpoint) && DoNextEndpoint(s, me, c) == Some(t)
    ensures Moved(s, me, t)
  {
    var p := s.procs[me];
    if p.vars.todo != [] {
      var endpoint := p.vars.todo[0];
      var id := Identity(p.call.peer, p.call.service, endpoint.name);
      FoundIsTheOnly(p.vars.active, id, c.found);
      var planned := PlanEndpoint(p.vars.prefs, p.vars.reserved, c.found, id, endpoint.protocol, p.call.port, c.free, c.ok);
      if planned.Ok? {
        PlanFits(p.vars.prefs, p.vars.reserved, c.found, id, endpoint.protocol, p.call.port, c.free, c.ok);
        PlannedMoves(s, me, planned.value, t);
      }
    }
  }

  lemma PlannedMoves(s: State, me: Pid, plan: Plan, t: State)
    requires AtPc(s, me, NextEndpoint)
    requires JobOf(s.procs[me].call, plan.job, s.procs[me].vars.prefs)
    requires plan.job.matches ==> plan.job.displaced.Some?
    requires if plan.job.displaced.Some? then OnlyUnder(s.rules, plan.job.record.id, plan.job.displaced.value.0)
             else NoneServes(s.rules, plan.job.record.id)
    requires var next := if plan.job.matches then Save(plan.job, None)
                         else if plan.job.displaced.Some? then RemoveOld(plan.job)
                         else StartRule(plan.job);
             t == GotoWith(s, me, next, s.procs[me].vars.(reserved := plan.reserved))
    ensures Moved(s, me, t)
  {
  }

  lemma StartRuleMoves(s: State, me: Pid, c: Choice, job: Job)
    requires AtPc(s, me, StartRule(job))
    ensures Moved(s, me, DoStartRule(s, me, c, job))
  {
    var rule := RuleFor(job.record, job.protocol);
    if c.ok && IsServiceAccessRule(rule) && RuleId(rule) !in s.rules {
      AddKeepsAtMostOne(s.rules, rule, job.record.id);
      StartedMoves(s, me, job);
    } else {
      GiveBackMoves(s, me, job);
    }
  }

  lemma StartedMoves(s: State, me: Pid, job: Job)
    requires AtPc(s, me, StartRule(job))
    requires AtMostOneEach(s.rules[RuleId(RuleFor(job.record, job.protocol)) := RuleFor(job.record, job.protocol)])
    ensures var rule := RuleFor(job.record, job.protocol);
            var id := RuleId(rule);
            var next := if s.procs[me].call.Restore? then Recheck(id, (job.record.id.peer, job.record.id.service), true)
                        else Save(job, Some(id));
            Moved(s, me, Goto(s.(rules := s.rules[id := rule]), me, next))
  {
    var rule := RuleFor(job.record, job.protocol);
    if s.procs[me].call.Restore? {
      RestartedKnows(s.rules, s.saved, s.procs[me], job);
    } else {
      StartedKnows(s.rules, s.saved, s.procs[me], job);
    }
  }

  lemma RestartedKnows(rules: RuleTable, saved: seq<Record>, p: Proc, job: Job)
    requires p.pc == StartRule(job) && Knows(rules, saved, p) && p.call.Restore?
    ensures var rule := RuleFor(job.record, job.protocol);
            var id := RuleId(rule);
            Knows(rules[id := rule], saved, p.(pc := Recheck(id, (job.record.id.peer, job.record.id.service), true)))
  {
  }

  lemma StartedKnows(rules: RuleTable, saved: seq<Record>, p: Proc, job: Job)
    requires p.pc == StartRule(job) && Knows(rules, saved, p) && p.call.Attach?
    ensures var rule := RuleFor(job.record, job.protocol);
            var id := RuleId(rule);
            Knows(rules[id := rule], saved, p.(pc := Save(job, Some(id))))
  {
  }

  /** Giving back is allowed once nothing serves the entry. */
  lemma GiveBackMoves(s: State, me: Pid, job: Job)
    requires me in s.procs && AtMostOneEach(s.rules) && WellFormed(s.saved)
    requires JobOf(s.procs[me].call, job, s.procs[me].vars.prefs) && NoneServes(s.rules, job.record.id)
    ensures Moved(s, me, GiveBack(s, me, job))
  {
  }

  lemma SaveMoves(s: State, me: Pid, c: Choice, job: Job, started: Option<string>)
    requires AtPc(s, me, Save(job, started))
    ensures Moved(s, me, DoSave(s, me, c, job, started))
  {
    UpsertKeepsWellFormed(s.saved, job.record);
  }

  lemma UndoStartMoves(s: State, me: Pid, job: Job, id: string)
    requires AtPc(s, me, UndoStart(job, id))
    ensures Moved(s, me, DoUndoStart(s, me, job, id))
  {
    GiveBackMoves(s.(rules := Without(s.rules, id)), me, job);
  }

  lemma ReAddMoves(s: State, me: Pid, c: Choice, rule: ForwardingRule)
    requires AtPc(s, me, ReAdd(rule))
    ensures Moved(s, me, DoReAdd(s, me, c, rule))
  {
    AddKeepsAtMostOne(s.rules, rule, Identity(rule.peer, rule.service.value, rule.entry.value));
  }

  lemma CollectMoves(s: State, me: Pid, c: Choice)
    ensures AtPc(s, me, ReadPrefs) ==> Moved(s, me, DoReadPrefs(s, me, c))
    ensures AtPc(s, me, Mark) ==> Moved(s, me, DoMark(s, me))
    ensures AtPc(s, me, Scan) && DoScan(s, me, c).Some? ==> Moved(s, me, DoScan(s, me, c).value)
  {
  }

  lemma ListingMoves(s: State, me: Pid)
    ensures AtPc(s, me, ListRules) ==> Moved(s, me, DoListRules(s, me))
    ensures AtPc(s, me, Relist) ==> Moved(s, me, DoRelist(s, me))
  {
  }

  lemma MarkMoves(s: State, me: Pid)
    ensures AtPc(s, me, ClearMark) ==> Moved(s, me, DoClearMark(s, me))
    ensures AtPc(s, me, CheckMark) ==> Moved(s, me, DoCheckMark(s, me))
  {
  }

  lemma RemoveOldMoves(s: State, me: Pid, job: Job)
    requires AtPc(s, me, RemoveOld(job))
    ensures Moved(s, me, DoRemoveOld(s, me, job))
  {
  }

  lemma RevokeMoves(s: State, me: Pid, id: string, ok: bool)
    requires AtPc(s, me, Revoke(id, ok))
    ensures Moved(s, me, DoRevoke(s, me, id, ok))
  {
  }

  lemma RestoreOldMoves(s: State, me: Pid, rule: ForwardingRule)
    requires AtPc(s, me, RestoreOld(rule))
    ensures Moved(s, me, DoRestoreOld(s, me, rule))
  {
  }

  lemma RecheckMoves(s: State, me: Pid, id: string, key: (string, string), ok: bool)
    requires AtPc(s, me, Recheck(id, key, ok))
    ensures Moved(s, me, DoRecheck(s, me, id, key, ok))
  {
  }

  lemma CollectorMoves(s: State, me: Pid, c: Choice, t: State)
    requires me in s.procs && AtPc(s, me, s.procs[me].pc) && CollectStep(s, me, c) == Some(t)
    ensures Moved(s, me, t)
  {
    match s.procs[me].pc {
      case Sweep(ids) => SweepMoves(s, me, ids);
      case Erase => EraseMoves(s, me, c);
      case _ => CollectMoves(s, me, c);
    }
  }

  lemma RestorerMoves(s: State, me: Pid, c: Choice, t: State)
    requires me in s.procs && AtPc(s, me, s.procs[me].pc) && RestoreStep(s, me, c) == Some(t)
    ensures Moved(s, me, t)
  {
    match s.procs[me].pc {
      case CheckMark => MarkMoves(s, me);
      case ReadRecord => ReadRecordMoves(s, me, c);
      case FindRule(record) => FindRuleMoves(s, me, c, record, t);
      case RestoreOld(rule) => RestoreOldMoves(s, me, rule);
      case ReAdd(rule) => ReAddMoves(s, me, c, rule);
      case Recheck(id, key, ok) => RecheckMoves(s, me, id, key, ok);
      case Revoke(id, ok) => RevokeMoves(s, me, id, ok);
    }
  }

  lemma AttacherMoves(s: State, me: Pid, c: Choice, t: State)
    requires me in s.procs && AtPc(s, me, s.procs[me].pc) && AttachStep(s, me, c) == Some(t)
    ensures Moved(s, me, t)
  {
    match s.procs[me].pc {
      case NextEndpoint => NextEndpointMoves(s, me, c, t);
      case RemoveOld(job) => RemoveOldMoves(s, me, job);
      case StartRule(job) => StartRuleMoves(s, me, c, job);
      case Save(job, started) => SaveMoves(s, me, c, job, started);
      case UndoStart(job, id) => UndoStartMoves(s, me, job, id);
      case ClearMark => MarkMoves(s, me);
      case _ => ListingMoves(s, me);
    }
  }

  lemma HolderStep(s: State, me: Pid, c: Choice, t: State)
    requires Inv(s) && s.lock == Some(me) && me in s.procs && StepOf(s, me, c) == Some(t)
    ensures Inv(t)
  {
    assert AtPc(s, me, s.procs[me].pc);
    if Collects(s.procs[me].pc) {
      CollectorMoves(s, me, c, t);
    } else if Restores(s.procs[me].pc) {
      RestorerMoves(s, me, c, t);
    } else {
      AttacherMoves(s, me, c, t);
    }
    MovedKeepsInv(s, me, t);
  }

  // ---------- steps of a detach, which holds nothing ----------

  /** A detach only marks and removes, and leaves every other process alone. */
  ghost predicate Bystands(s: State, me: Pid, t: State) {
    me in s.procs && me in t.procs && t.procs == s.procs[me := t.procs[me]] && t.procs[me].call == s.procs[me].call
    && Shrinks(s.rules, t.rules) && t.saved == s.saved && t.lock == s.lock && s.detached <= t.detached
    && var pc := t.procs[me].pc; pc.Start? || pc.Scan? || pc.Sweep? || pc.Returned?
  }

  lemma DetachBystands(s: State, me: Pid, c: Choice, t: State)
    requires me in s.procs && s.procs[me].call.Detach? && StepOf(s, me, c) == Some(t)
    requires var pc := s.procs[me].pc; pc.Start? || pc.Scan? || pc.Sweep? || pc.Returned?
    ensures Bystands(s, me, t)
  {
  }

  lemma BystanderKeepsInv(s: State, me: Pid, t: State)
    requires Inv(s) && Bystands(s, me, t) && s.procs[me].call.Detach?
    ensures Inv(t)
  {
    if s.lock.Some? {
      KnowsSurvivesRemoval(s.rules, t.rules, s.saved, s.procs[s.lock.value]);
    }
  }

  lemma AcquireKeepsInv(s: State, me: Pid, t: State)
    requires Inv(s) && me in s.procs && s.procs[me].pc.Start? && !s.procs[me].call.Detach? && Begin(s, me) == Some(t)
    ensures Inv(t)
  {
  }

  lemma InvStep(s: State, e: Event, t: State)
    requires Inv(s) && Next(s, e, t)
    ensures Inv(t)
  {
    match e {
      case Invoke(pid, call) =>
      case Step(me, c) =>
        if s.procs[me].call.Detach? {
          DetachBystands(s, me, c, t);
          BystanderKeepsInv(s, me, t);
        } else if s.procs[me].pc.Start? {
          AcquireKeepsInv(s, me, t);
        } else {
          assert Holding(s.procs[me]);
          HolderStep(s, me, c, t);
        }
    }
  }

  lemma {:induction false} InvAlways(run: seq<State>, events: seq<Event>, k: nat)
    requires IsRun(run, events) && k <= |events|
    ensures Inv(run[k])
  {
    if k > 0 {
      InvAlways(run, events, k - 1);
      assert Follows(run, events, k - 1);
      InvStep(run[k - 1], events[k - 1], run[k]);
    }
  }

  /** In every interleaving, no service entry ever has two listeners. */
  lemma NeverTwoListeners(run: seq<State>, events: seq<Event>, k: nat)
    requires IsRun(run, events) && k <= |events|
    ensures forall a <- run[k].rules, b <- run[k].rules ::
              var (r, s) := (run[k].rules[a], run[k].rules[b]);
              a != b && r.service.Some? && r.entry.Some? ==> r.peer != s.peer || r.service != s.service || r.entry != s.entry
  {
    InvAlways(run, events, k);
    forall a, b | a in run[k].rules && b in run[k].rules && SameEntry(run[k].rules[a], run[k].rules[b]) ensures a == b {
    }
  }

  /** In every interleaving the preference file stays well-formed: no identity and no port twice, nothing blank, in order. */
  lemma SavedListStaysWellFormed(run: seq<State>, events: seq<Event>, k: nat)
    requires IsRun(run, events) && k <= |events|
    ensures var records := run[k].saved;
            && (forall i, j :: 0 <= i < j < |records| ==>
                  records[i].id != records[j].id && !(records[i].host == records[j].host && records[i].port == records[j].port))
            && (forall r <- records ::
                  Text.Trim(r.id.peer) != "" && Text.Trim(r.id.service) != "" && Text.Trim(r.id.entry) != "" && Text.Trim(r.host) != ""
                  && r.port > 0)
            && (forall i, j :: 0 <= i < j < |records| ==>
                  var a, b := records[i].id, records[j].id;
                  Text.Leq(a.peer, b.peer)
                  && (a.peer == b.peer ==> Text.Leq(a.service, b.service) && (a.service == b.service ==> Text.Leq(a.entry, b.entry))))
  {
    hide Text.Trim, Text.Leq, WellFormed;
    InvAlways(run, events, k);
    WellFormedFields(run[k].saved);
  }
}
