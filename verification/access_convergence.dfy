/** Where detaching and forgetting end up, whatever runs beside them. */
module AccessConvergence {
  import opened Wrappers
  import opened Widths
  import opened LocalPreferences
  import opened Forwarding
  import opened AccessPlan
  import opened AccessProtocol
  import opened AccessSafety

  type Key = (string, string)

  function ScopeOf(key: Key): (string, Option<string>) {
    (key.0, Some(key.1))
  }

  /** The call is about this peer, and about this service if the scope names one. */
  predicate CallInScope(call: Call, scope: (string, Option<string>)) {
    Scope(call).0 == scope.0 && (scope.1.Some? ==> Scope(call).1 == scope.1)
  }

  /** An attach within the scope is past its lock. */
  predicate AttachHolds(s: State, scope: (string, Option<string>)) {
    s.lock.Some? && s.lock.value in s.procs
    && s.procs[s.lock.value].call.Attach? && CallInScope(s.procs[s.lock.value].call, scope)
  }

  /** Which calls these are. */
  lemma HoldsInScope(s: State, scope: (string, Option<string>))
    ensures AttachHolds(s, scope) <==>
              s.lock.Some? && s.lock.value in s.procs
              && match s.procs[s.lock.value].call
                 case Attach(peer, service, _, _) => peer == scope.0 && scope.1 in {None, Some(service)}
                 case _ => false
  {
  }

  /** The lock holder has just added this rule, and its next steps test the mark and take it back. */
  predicate Revoking(s: State, key: Key, id: string) {
    s.lock.Some? && s.lock.value in s.procs
    && match s.procs[s.lock.value].pc
       case Recheck(added, k, _) => added == id && k == key
       case Revoke(added, _) => added == id
       case _ => false
  }

  predicate OfKey(r: ForwardingRule, key: Key) {
    OfService(r, key.0, Some(key.1))
  }

  /** Marked detached, and every rule left is one its adder is about to take back. */
  ghost predicate Settled(s: State, key: Key) {
    key in s.detached && forall id <- s.rules :: OfKey(s.rules[id], key) ==> Revoking(s, key, id)
  }

  /** What a step may do to a service that is marked detached and that no attach is working on. */
  ghost predicate Quiet(s: State, t: State, key: Key) {
    key in t.detached
    && forall id <- t.rules :: OfKey(t.rules[id], key) ==>
         Revoking(t, key, id) || (id in s.rules && t.rules[id] == s.rules[id] && !Revoking(s, key, id))
  }

  lemma HolderIsQuiet(s: State, me: Pid, c: Choice, t: State, key: Key)
    requires Inv(s) && s.lock == Some(me) && me in s.procs && StepOf(s, me, c) == Some(t)
    requires key in s.detached && !AttachHolds(s, ScopeOf(key))
    ensures Quiet(s, t, key)
  {
    assert AtPc(s, me, s.procs[me].pc);
    if Collects(s.procs[me].pc) { CollectFrame(s, me, c, t); }
    else if Restores(s.procs[me].pc) { RestorerIsQuiet(s, me, c, t, key); }
    else { AttacherIsQuiet(s, me, c, t, key); }
  }

  lemma RestorerIsQuiet(s: State, me: Pid, c: Choice, t: State, key: Key)
    requires me in s.procs && AtPc(s, me, s.procs[me].pc) && s.lock == Some(me) && RestoreStep(s, me, c) == Some(t)
    requires key in s.detached && !AttachHolds(s, ScopeOf(key))
    ensures Quiet(s, t, key)
  {
    match s.procs[me].pc {
      case ReAdd(rule) => ReAddIsQuiet(s, me, c, rule, key);
      case Recheck(id, k, ok) => RecheckIsQuiet(s, me, id, k, ok, key);
      case Revoke(id, ok) => RevokeIsQuiet(s, me, id, ok, key);
      case _ => RestoreFrame(s, me, c, t);
    }
  }

  lemma AttacherIsQuiet(s: State, me: Pid, c: Choice, t: State, key: Key)
    requires me in s.procs && AtPc(s, me, s.procs[me].pc) && s.lock == Some(me) && AttachStep(s, me, c) == Some(t)
    requires key in s.detached && !AttachHolds(s, ScopeOf(key))
    ensures Quiet(s, t, key)
  {
    match s.procs[me].pc {
      case StartRule(job) => StartIsQuiet(s, me, c, job, key);
      case _ => AttachFrame(s, me, c, t);
    }
  }

  lemma StartIsQuiet(s: State, me: Pid, c: Choice, job: Job, key: Key)
    requires AtPc(s, me, StartRule(job)) && s.lock == Some(me)
    requires key in s.detached && !AttachHolds(s, ScopeOf(key))
    ensures Quiet(s, DoStartRule(s, me, c, job), key)
  {
  }

  lemma ReAddIsQuiet(s: State, me: Pid, c: Choice, rule: ForwardingRule, key: Key)
    requires AtPc(s, me, ReAdd(rule)) && s.lock == Some(me)
    requires key in s.detached && !AttachHolds(s, ScopeOf(key))
    ensures Quiet(s, DoReAdd(s, me, c, rule), key)
  {
  }

  lemma RecheckIsQuiet(s: State, me: Pid, id: string, k: Key, ok: bool, key: Key)
    requires AtPc(s, me, Recheck(id, k, ok)) && s.lock == Some(me)
    requires key in s.detached
    ensures Quiet(s, DoRecheck(s, me, id, k, ok), key)
  {
  }

  lemma RevokeIsQuiet(s: State, me: Pid, id: string, ok: bool, key: Key)
    requires AtPc(s, me, Revoke(id, ok)) && s.lock == Some(me)
    requires key in s.detached
    ensures Quiet(s, DoRevoke(s, me, id, ok), key)
  {
  }

  /** Away from the two adding steps a call only removes rules. */
  lemma HolderOnlyRemoves(s: State, me: Pid, c: Choice, t: State)
    requires me in s.procs && StepOf(s, me, c) == Some(t)
    requires !s.procs[me].pc.StartRule? && !s.procs[me].pc.ReAdd?
    ensures Shrinks(s.rules, t.rules)
  {
    if Collects(s.procs[me].pc) { CollectFrame(s, me, c, t); }
    else if Restores(s.procs[me].pc) { RestoreFrame(s, me, c, t); }
    else { AttachFrame(s, me, c, t); }
  }

  lemma CollectFrame(s: State, me: Pid, c: Choice, t: State)
    requires me in s.procs && CollectStep(s, me, c) == Some(t)
    ensures Shrinks(s.rules, t.rules) && s.detached <= t.detached
    ensures !s.procs[me].pc.Erase? ==> t.saved == s.saved
  {
  }

  lemma RestoreFrame(s: State, me: Pid, c: Choice, t: State)
    requires me in s.procs && RestoreStep(s, me, c) == Some(t)
    ensures s.detached == t.detached && t.saved == s.saved
    ensures !s.procs[me].pc.ReAdd? ==> Shrinks(s.rules, t.rules)
  {
  }

  lemma AttachFrame(s: State, me: Pid, c: Choice, t: State)
    requires me in s.procs && AttachStep(s, me, c) == Some(t)
    ensures !s.procs[me].pc.Save? ==> t.saved == s.saved
    ensures !s.procs[me].pc.StartRule? ==> Shrinks(s.rules, t.rules)
    ensures if s.procs[me].pc.ClearMark?
            then s.procs[me].call.Attach? && t.detached == s.detached - {(s.procs[me].call.peer, s.procs[me].call.service)}
            else t.detached == s.detached
  {
  }

  lemma StepIsQuiet(s: State, e: Event, t: State, key: Key)
    requires Inv(s) && Next(s, e, t) && key in s.detached && !AttachHolds(s, ScopeOf(key))
    ensures Quiet(s, t, key)
  {
    match e {
      case Invoke(pid, call) =>
      case Step(me, c) =>
        if s.procs[me].call.Detach? {
          DetachBystands(s, me, c, t);
          assert forall id :: Revoking(s, key, id) <==> Revoking(t, key, id);
          BystandsQuietly(s, me, t, key);
        } else if s.procs[me].pc.Start? {
        } else {
          assert Holding(s.procs[me]);
          HolderIsQuiet(s, me, c, t, key);
        }
    }
  }

  /** A bystander may leave a rule that is being revoked where it is. */
  lemma BystandsQuietly(s: State, me: Pid, t: State, key: Key)
    requires Inv(s) && Bystands(s, me, t) && s.procs[me].call.Detach? && key in s.detached
    ensures Quiet(s, t, key)
  {
  }

  // ---------- detach ----------

  /** How far a detach, or the locked variant of it, has come. */
  ghost predicate Progress(s: State, d: Pid, key: Key) {
    d in s.procs
    && var p := s.procs[d];
    (p.call == Detach(key.0, key.1) || p.call == ForgetService(key.0, key.1))
    && match p.pc
       case Start => true
       case Mark => true
       case Scan => key in s.detached
       case Sweep(ids) =>
         key in s.detached
         && forall id <- s.rules :: OfKey(s.rules[id], key) ==> id in ids || Revoking(s, key, id)
       case Erase => Settled(s, key)
       case Returned(ok) => ok ==> Settled(s, key)
       case _ => false
  }

  lemma ProgressStep(s: State, e: Event, t: State, d: Pid, key: Key)
    requires Inv(s) && Next(s, e, t) && Progress(s, d, key) && !AttachHolds(s, ScopeOf(key))
    ensures Progress(t, d, key)
  {
    if key in s.detached {
      StepIsQuiet(s, e, t, key);
    }
    if e.Step? && e.pid == d {
      OwnProgress(s, d, e.choice, t, key);
    } else {
      if e.Step? { StepTouchesOnlyMe(s, e.pid, e.choice, t); }
    }
  }

  lemma OwnProgress(s: State, d: Pid, c: Choice, t: State, key: Key)
    requires d in s.procs && Collects(s.procs[d].pc) && CollectStep(s, d, c) == Some(t) && Progress(s, d, key)
    requires key in s.detached ==> Quiet(s, t, key)
    ensures Progress(t, d, key)
  {
    match s.procs[d].pc {
      case Sweep(ids) =>
        if ids != [] && ids[0] in s.rules {
          assert forall id <- t.rules :: id in ids ==> id in ids[1..];
        }
      case _ =>
    }
  }

  lemma {:induction false} ProgressAlways(run: seq<State>, events: seq<Event>, i: nat, k: nat, d: Pid, key: Key)
    requires IsRun(run, events) && i <= k <= |events|
    requires Progress(run[i], d, key)
    requires forall m :: i <= m < k ==> !AttachHolds(run[m], ScopeOf(key))
    ensures Progress(run[k], d, key)
  {
    hide Progress, AttachHolds, Inv, Next;
    if i < k {
      ProgressAlways(run, events, i, k - 1, d, key);
      InvAlways(run, events, k - 1);
      assert Follows(run, events, k - 1);
      ProgressStep(run[k - 1], events[k - 1], run[k], d, key);
    }
  }

  /**
   * A detach that returned Ok, with no attach of the service holding the lock since it was called:
   * every rule of the service that is active is one whose adder still owes its removal.
   */
  lemma DetachLeavesOnlyOwedRules(run: seq<State>, events: seq<Event>, i: nat, k: nat, d: Pid, key: Key)
    requires IsRun(run, events) && i <= k <= |events|
    requires d in run[i].procs && run[i].procs[d].pc.Start?
    requires run[i].procs[d].call in {Detach(key.0, key.1), ForgetService(key.0, key.1)}
    requires d in run[k].procs && run[k].procs[d].pc == Returned(true)
    requires forall m :: i <= m < k ==> !AttachHolds(run[m], ScopeOf(key))
    ensures key in run[k].detached
    ensures forall id <- run[k].rules ::
              run[k].rules[id].peer == key.0 && run[k].rules[id].service == Some(key.1) ==> Revoking(run[k], key, id)
  {
    ProgressAlways(run, events, i, k, d, key);
  }

  predicate RestoreInFlight(s: State, key: Key) {
    exists pid <- s.procs :: s.procs[pid].call.Restore? && Holding(s.procs[pid]) && CallInScope(s.procs[pid].call, ScopeOf(key))
  }

  lemma FlightOfRestores(s: State, key: Key)
    ensures RestoreInFlight(s, key) <==>
              exists pid <- s.procs ::
                s.procs[pid].call.Restore? && !s.procs[pid].pc.Start? && !s.procs[pid].pc.Returned?
                && s.procs[pid].call.candidate.peer == key.0 && s.procs[pid].call.candidate.service == key.1
  {
  }

  /** ... and once no restore of the service is in flight, no rule of it is active. */
  lemma DetachConverges(run: seq<State>, events: seq<Event>, i: nat, k: nat, d: Pid, key: Key)
    requires IsRun(run, events) && i <= k <= |events|
    requires d in run[i].procs && run[i].procs[d].pc.Start?
    requires run[i].procs[d].call in {Detach(key.0, key.1), ForgetService(key.0, key.1)}
    requires d in run[k].procs && run[k].procs[d].pc == Returned(true)
    requires forall m :: i <= m <= k ==> !AttachHolds(run[m], ScopeOf(key))
    requires !RestoreInFlight(run[k], key)
    ensures forall id <- run[k].rules :: !(run[k].rules[id].peer == key.0 && run[k].rules[id].service == Some(key.1))
  {
    DetachLeavesOnlyOwedRules(run, events, i, k, d, key);
    InvAlways(run, events, k);
    assert !AttachHolds(run[k], ScopeOf(key));
  }

  // ---------- forgetting ----------

  /** Nothing of the scope is active or saved, and the lock holder is not about to change that. */
  ghost predicate Forgotten(s: State, scope: (string, Option<string>)) {
    (forall id <- s.rules :: !RuleInScope(s.rules[id], scope))
    && (forall r <- s.saved :: !RecordInScope(r, scope))
    && (s.lock.Some? && s.lock.value in s.procs ==>
          var p := s.procs[s.lock.value];
          p.call.Restore? && CallInScope(p.call, scope) ==> p.pc.CheckMark? || p.pc.ReadRecord?)
  }

  lemma ForgottenHolderStep(s: State, me: Pid, c: Choice, t: State, scope: (string, Option<string>))
    requires Inv(s) && s.lock == Some(me) && me in s.procs && StepOf(s, me, c) == Some(t)
    requires Forgotten(s, scope) && !AttachHolds(s, scope)
    ensures Forgotten(t, scope)
  {
    assert AtPc(s, me, s.procs[me].pc);
    var pc := s.procs[me].pc;
    if pc.StartRule? {
      ForgottenStart(s, me, c, pc.job, scope);
    } else if pc.ReAdd? {
      ForgottenReAdd(s, me, c, pc.rule, scope);
    } else if pc.Save? {
      ForgottenSave(s, me, c, pc.job, pc.started, scope);
    } else if pc.Erase? {
      ForgottenErase(s, me, c, scope);
    } else {
      ForgottenElsewhere(s, me, c, t, scope);
    }
  }

  lemma ForgottenElsewhere(s: State, me: Pid, c: Choice, t: State, scope: (string, Option<string>))
    requires s.lock == Some(me) && me in s.procs && AtPc(s, me, s.procs[me].pc) && StepOf(s, me, c) == Some(t)
    requires Forgotten(s, scope)
    requires var pc := s.procs[me].pc; !pc.StartRule? && !pc.ReAdd? && !pc.Save? && !pc.Erase?
    ensures Forgotten(t, scope)
  {
    HolderOnlyRemoves(s, me, c, t);
    HolderKeepsFile(s, me, c, t);
    StepTouchesOnlyMe(s, me, c, t);
    if (s.procs[me].pc.CheckMark? || s.procs[me].pc.ReadRecord?) && CallInScope(s.procs[me].call, scope) {
      FindIsMember(s.saved, s.procs[me].call.candidate);
      RestoreReads(s, me, c, t);
    }
  }

  /** Away from the two saving steps the file stays. */
  lemma HolderKeepsFile(s: State, me: Pid, c: Choice, t: State)
    requires me in s.procs && StepOf(s, me, c) == Some(t)
    requires !s.procs[me].pc.Save? && !s.procs[me].pc.Erase?
    ensures t.saved == s.saved
  {
    if Collects(s.procs[me].pc) { CollectFrame(s, me, c, t); }
    else if Restores(s.procs[me].pc) { RestoreFrame(s, me, c, t); }
    else { AttachFrame(s, me, c, t); }
  }

  /** A restore that finds no record returns. */
  lemma RestoreReads(s: State, me: Pid, c: Choice, t: State)
    requires me in s.procs && s.procs[me].call.Restore? && StepOf(s, me, c) == Some(t)
    requires s.procs[me].pc.CheckMark? || (s.procs[me].pc.ReadRecord? && Find(s.saved, s.procs[me].call.candidate).None?)
    ensures me in t.procs && (t.procs[me].pc.ReadRecord? || t.procs[me].pc.Returned?)
    ensures s.procs[me].pc.ReadRecord? ==> t.procs[me].pc.Returned?
  {
  }

  lemma ForgottenStart(s: State, me: Pid, c: Choice, job: Job, scope: (string, Option<string>))
    requires AtPc(s, me, StartRule(job)) && s.lock == Some(me) && Forgotten(s, scope) && !AttachHolds(s, scope)
    ensures Forgotten(DoStartRule(s, me, c, job), scope)
  {
  }

  lemma ForgottenReAdd(s: State, me: Pid, c: Choice, rule: ForwardingRule, scope: (string, Option<string>))
    requires AtPc(s, me, ReAdd(rule)) && s.lock == Some(me) && Forgotten(s, scope) && !AttachHolds(s, scope)
    ensures Forgotten(DoReAdd(s, me, c, rule), scope)
  {
  }

  lemma ForgottenSave(s: State, me: Pid, c: Choice, job: Job, started: Option<string>, scope: (string, Option<string>))
    requires AtPc(s, me, Save(job, started)) && s.lock == Some(me) && Forgotten(s, scope) && !AttachHolds(s, scope)
    ensures Forgotten(DoSave(s, me, c, job, started), scope)
  {
    UpsertMembers(s.saved, job.record);
    var t := DoSave(s, me, c, job, started);
    assert forall r <- t.saved :: r == job.record || r in s.saved;
    assert c.ok ==> !RecordInScope(job.record, scope);
  }

  lemma ForgottenErase(s: State, me: Pid, c: Choice, scope: (string, Option<string>))
    requires AtPc(s, me, Erase) && s.lock == Some(me) && Forgotten(s, scope)
    ensures Forgotten(DoErase(s, me, c), scope)
  {
    match s.procs[me].call {
      case ForgetDevice(peer) => DropMembers(s.saved, (r: Record) => r.id.peer == peer);
      case ForgetService(peer, service) =>
        DropMembers(s.saved, (r: Record) => r.id.peer == peer && r.id.service == service);
    }
  }

  lemma ForgottenStep(s: State, e: Event, t: State, scope: (string, Option<string>))
    requires Inv(s) && Next(s, e, t) && Forgotten(s, scope) && !AttachHolds(s, scope)
    ensures Forgotten(t, scope)
  {
    match e {
      case Invoke(pid, call) =>
      case Step(me, c) =>
        if s.procs[me].call.Detach? {
          DetachBystands(s, me, c, t);
        } else if s.procs[me].pc.Start? {
        } else {
          assert Holding(s.procs[me]);
          ForgottenHolderStep(s, me, c, t, scope);
        }
    }
  }

  ghost predicate ForgetProgress(s: State, f: Pid, scope: (string, Option<string>)) {
    f in s.procs && Scope(s.procs[f].call) == scope && (s.procs[f].call.ForgetService? || s.procs[f].call.ForgetDevice?)
    && (s.procs[f].pc == Returned(true) ==> Forgotten(s, scope))
  }

  lemma ForgetProgressStep(s: State, e: Event, t: State, f: Pid, scope: (string, Option<string>))
    requires Inv(s) && Next(s, e, t) && ForgetProgress(s, f, scope) && !AttachHolds(s, scope)
    ensures ForgetProgress(t, f, scope)
  {
    if e.Step? && e.pid == f {
      if s.procs[f].pc.Start? {
        StepTouchesOnlyMe(s, f, e.choice, t);
      } else {
        assert Holding(s.procs[f]);
        assert AtPc(s, f, s.procs[f].pc);
        ForgetsOnReturn(s, f, e.choice, t);
      }
    } else {
      if e.Step? { StepTouchesOnlyMe(s, e.pid, e.choice, t); }
      if s.procs[f].pc == Returned(true) {
        ForgottenStep(s, e, t, scope);
      }
    }
  }

  /** A forget that returns Ok has just erased the last trace. */
  lemma ForgetsOnReturn(s: State, f: Pid, c: Choice, t: State)
    requires f in s.procs && AtPc(s, f, s.procs[f].pc) && s.lock == Some(f) && StepOf(s, f, c) == Some(t)
    requires s.procs[f].call.ForgetService? || s.procs[f].call.ForgetDevice?
    ensures f in t.procs && t.procs[f].call == s.procs[f].call
    ensures t.procs[f].pc == Returned(true) ==> Forgotten(t, Scope(s.procs[f].call))
  {
    if s.procs[f].pc.Erase? {
      EraseForgets(s, f, c);
    } else {
      assert Knows(s.rules, s.saved, s.procs[f]);
      StepTouchesOnlyMe(s, f, c, t);
      OnlyEraseReturnsOk(s, f, c, t);
    }
  }

  lemma OnlyEraseReturnsOk(s: State, f: Pid, c: Choice, t: State)
    requires f in s.procs && StepOf(s, f, c) == Some(t) && f in t.procs
    requires s.procs[f].call.ForgetService? || s.procs[f].call.ForgetDevice?
    requires var pc := s.procs[f].pc; pc.ReadPrefs? || pc.Mark? || pc.Scan? || pc.Sweep?
    ensures t.procs[f].pc != Returned(true)
  {
  }

  lemma EraseForgets(s: State, f: Pid, c: Choice)
    requires AtPc(s, f, Erase) && s.lock == Some(f)
    ensures var t := DoErase(s, f, c);
            f in t.procs && t.procs[f].call == s.procs[f].call
            && (t.procs[f].pc == Returned(true) ==> Forgotten(t, Scope(s.procs[f].call)))
  {
    match s.procs[f].call {
      case ForgetDevice(peer) => DropMembers(s.saved, (r: Record) => r.id.peer == peer);
      case ForgetService(peer, service) =>
        DropMembers(s.saved, (r: Record) => r.id.peer == peer && r.id.service == service);
    }
  }

  lemma {:induction false} ForgetAlways(run: seq<State>, events: seq<Event>, i: nat, k: nat, f: Pid, scope: (string, Option<string>))
    requires IsRun(run, events) && i <= k <= |events|
    requires ForgetProgress(run[i], f, scope)
    requires forall m :: i <= m < k ==> !AttachHolds(run[m], scope)
    ensures ForgetProgress(run[k], f, scope)
  {
    if i < k {
      ForgetAlways(run, events, i, k - 1, f, scope);
      InvAlways(run, events, k - 1);
      assert Follows(run, events, k - 1);
      ForgetProgressStep(run[k - 1], events[k - 1], run[k], f, scope);
    }
  }

  /**
   * A forget that returned Ok, with no attach in its scope holding the lock since it was called: no
   * rule of the device, or of the service, is active and no record saved, even while restores are under way.
   */
  lemma ForgetConverges(run: seq<State>, events: seq<Event>, i: nat, k: nat, f: Pid)
    requires IsRun(run, events) && i <= k <= |events|
    requires f in run[i].procs && run[i].procs[f].pc.Start?
    requires run[i].procs[f].call.ForgetService? || run[i].procs[f].call.ForgetDevice?
    requires f in run[k].procs && run[k].procs[f].pc == Returned(true)
    requires forall m :: i <= m < k ==> !AttachHolds(run[m], Scope(run[i].procs[f].call))
    ensures match run[i].procs[f].call
            case ForgetDevice(peer) =>
              (forall id <- run[k].rules :: run[k].rules[id].peer != peer) && (forall r <- run[k].saved :: r.id.peer != peer)
            case ForgetService(peer, service) =>
              (forall id <- run[k].rules :: !(run[k].rules[id].peer == peer && run[k].rules[id].service == Some(service)))
              && (forall r <- run[k].saved :: !(r.id.peer == peer && r.id.service == service))
            case _ => true
  {
    ForgetAlways(run, events, i, k, f, Scope(run[i].procs[f].call));
  }
}
