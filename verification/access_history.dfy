/** What whole runs of the access protocol leave: the saved list, and the rules of an attach. */
module AccessHistory {
  import opened Wrappers
  import opened Widths
  import opened LocalPreferences
  import opened Forwarding
  import opened AccessPlan
  import opened AccessProtocol
  import opened AccessSafety
  import opened ServiceAccesses
  import AccessConvergence

  type Key = (string, string)

  // ---------- the saved list ----------

  /** The edit a step makes to the preference file: a save or an erasure that succeeds. */
  function EditOf(s: State, e: Event): Option<Edit> {
    if !e.Step? || e.pid !in s.procs || !e.choice.ok then None
    else match s.procs[e.pid].pc
      case Save(job, _) => Some(UpsertRecord(job.record))
      case Erase =>
        (match s.procs[e.pid].call
         case ForgetDevice(peer) => Some(RemoveDevice(peer))
         case ForgetService(peer, service) => Some(RemoveService(peer, service))
         case _ => None)
      case _ => None
  }

  /** The edits of the first `k` events, in order. */
  function EditsOf(run: seq<State>, events: seq<Event>, k: nat): seq<Edit>
    requires k <= |events| < |run|
  {
    if k == 0 then []
    else Extended(EditsOf(run, events, k - 1), EditOf(run[k - 1], events[k - 1]))
  }

  function Extended(edits: seq<Edit>, edit: Option<Edit>): seq<Edit> {
    if edit.Some? then edits + [edit.value] else edits
  }

  function Edited(records: seq<Record>, edit: Option<Edit>): seq<Record> {
    if edit.Some? then Apply(records, edit.value) else records
  }

  lemma {:induction false} RunAppends(records: seq<Record>, edits: seq<Edit>, edit: Option<Edit>)
    ensures LocalPreferences.Run(records, Extended(edits, edit)) == Edited(LocalPreferences.Run(records, edits), edit)
    decreases |edits|
  {
    if edit.Some? {
      if edits == [] {
        assert edits + [edit.value] == [edit.value];
        assert [edit.value][1..] == [];
      } else {
        RunAppends(Apply(records, edits[0]), edits[1..], edit);
        assert (edits + [edit.value])[1..] == edits[1..] + [edit.value];
      }
    }
  }

  /** A step changes the file by its edit, whatever copy of the list its call works on. */
  lemma StepEdits(s: State, e: Event, t: State)
    requires Inv(s) && Next(s, e, t)
    ensures t.saved == Edited(s.saved, EditOf(s, e))
  {
    if e.Step? {
      var me, c := e.pid, e.choice;
      if Holding(s.procs[me]) {
        if s.procs[me].pc.Save? {
          assert Knows(s.rules, s.saved, s.procs[me]);
        } else if s.procs[me].pc.Erase? {
          assert Knows(s.rules, s.saved, s.procs[me]);
        } else {
          AccessConvergence.HolderKeepsFile(s, me, c, t);
        }
      } else if s.procs[me].call.Detach? {
        DetachBystands(s, me, c, t);
      }
    }
  }

  /**
   * In every interleaving, the file is the first list with the edits that succeeded applied to it, one
   * after another: no update is lost to a stale copy, and none is made twice.
   */
  lemma SavedListIsTheEdits(run: seq<State>, events: seq<Event>, k: nat)
    requires IsRun(run, events) && k <= |events|
    ensures run[k].saved == LocalPreferences.Run(run[0].saved, EditsOf(run, events, k))
  {
    forall m | 0 <= m < k ensures EditedAt(run, events, m) {
      EditAt(run, events, m);
    }
    EditsAddUp(run, events, k);
  }

  ghost predicate EditedAt(run: seq<State>, events: seq<Event>, m: nat)
    requires m < |events| < |run|
  {
    run[m + 1].saved == Edited(run[m].saved, EditOf(run[m], events[m]))
  }

  lemma {:induction false} EditsAddUp(run: seq<State>, events: seq<Event>, k: nat)
    requires k <= |events| < |run| && forall m: nat :: m < k ==> EditedAt(run, events, m)
    ensures run[k].saved == LocalPreferences.Run(run[0].saved, EditsOf(run, events, k))
  {
    if k > 0 {
      EditsAddUp(run, events, k - 1);
      assert EditedAt(run, events, k - 1);
      RunAppends(run[0].saved, EditsOf(run, events, k - 1), EditOf(run[k - 1], events[k - 1]));
    }
  }

  lemma EditAt(run: seq<State>, events: seq<Event>, k: nat)
    requires IsRun(run, events) && k < |events|
    ensures EditedAt(run, events, k)
  {
    InvAlways(run, events, k);
    assert Follows(run, events, k);
    StepEdits(run[k], events[k], run[k + 1]);
  }

  // ---------- an attach beside detaches ----------

  predicate OfKey(r: ForwardingRule, key: Key) {
    OfService(r, key.0, Some(key.1))
  }

  /** No detach that is removing rules has the id of a rule of this service on its list. */
  ghost predicate NoneListed(s: State, key: Key) {
    forall pid <- s.procs ::
      s.procs[pid].call.Detach? && s.procs[pid].pc.Sweep? ==>
        forall id <- s.procs[pid].pc.ids :: id in s.rules ==> !(s.rules[id].peer == key.0 && s.rules[id].service == Some(key.1))
  }

  /** The service's rules are as they were, and no rule is new. */
  ghost predicate KeepsKey(before: RuleTable, after: RuleTable, key: Key) {
    Shrinks(before, after) && forall k <- before :: OfKey(before[k], key) ==> k in after
  }

  function KeyOf(p: Proc): Key
    requires p.call.Attach?
  {
    (p.call.peer, p.call.service)
  }

  function EntryOf(p: Proc, j: nat): Identity
    requires p.call.Attach? && j < |p.call.endpoints|
  {
    IdOf(p.call.peer, p.call.service, p.call.endpoints[j])
  }

  /** The first `n` endpoints each have one rule, on the saved port and with their protocol. */
  ghost predicate AttachedUpTo(rules: RuleTable, saved: seq<Record>, p: Proc, n: nat)
    requires p.call.Attach? && n <= |p.call.endpoints|
  {
    forall j :: 0 <= j < n ==> Attached(rules, saved, EntryOf(p, j), p.call.endpoints[j].protocol)
  }

  /** The endpoints the loop has finished are attached. */
  ghost predicate Reached(rules: RuleTable, saved: seq<Record>, p: Proc)
    requires p.call.Attach?
  {
    |p.vars.todo| <= |p.call.endpoints|
    && var n := |p.call.endpoints| - |p.vars.todo|;
    p.vars.todo == p.call.endpoints[n..] && AttachedUpTo(rules, saved, p, n)
  }

  /** The job is the one of the endpoint at hand. */
  predicate IsCurrentJob(p: Proc, job: Job) {
    p.call.Attach? && p.vars.todo != [] && job.protocol == p.vars.todo[0].protocol
    && job.record.id == IdOf(p.call.peer, p.call.service, p.vars.todo[0]) && job.record.host == LOCALHOST
  }

  /** The snapshot has lost no rule of the service since it was taken. */
  ghost predicate FreshFor(active: RuleTable, rules: RuleTable, key: Key) {
    forall k <- active :: OfKey(active[k], key) ==> k in rules && rules[k] == active[k]
  }

  predicate RuleFits(rules: RuleTable, k: string, job: Job) {
    k in rules && Serves(rules[k], job.record.id) && rules[k].host == LOCALHOST
    && rules[k].port == job.record.port && rules[k].protocol == Some(job.protocol)
  }

  /** What an attach has achieved at each point, if no detach has taken a rule of its service. */
  ghost predicate Achieved(rules: RuleTable, saved: seq<Record>, p: Proc)
    requires p.call.Attach?
  {
    match p.pc
    case ReadPrefs => true
    case ListRules => true
    case NextEndpoint => Reached(rules, saved, p) && FreshFor(p.vars.active, rules, KeyOf(p))
    case RemoveOld(job) =>
      Reached(rules, saved, p) && IsCurrentJob(p, job)
      && (job.displaced.Some? && job.displaced.value.0 in rules ==> rules[job.displaced.value.0] == job.displaced.value.1)
    case StartRule(job) => Reached(rules, saved, p) && IsCurrentJob(p, job)
    case Save(job, started) =>
      Reached(rules, saved, p) && IsCurrentJob(p, job)
      && (if job.matches
          then FreshFor(p.vars.active, rules, KeyOf(p)) && job.displaced.Some? && RuleFits(rules, job.displaced.value.0, job)
          else started.Some? && RuleFits(rules, started.value, job))
    case Relist => Reached(rules, saved, p)
    case ClearMark => Reached(rules, saved, p) && p.vars.todo == []
    case Recheck(_, _, ok) => !ok
    case Revoke(_, ok) => !ok
    case Returned(ok) => !ok
    case _ => p.pc.UndoStart? || p.pc.RestoreOld? || p.pc.ReAdd?
  }

  lemma AttachedStays(before: RuleTable, after: RuleTable, saved: seq<Record>, id: Identity, protocol: string)
    requires Attached(before, saved, id, protocol) && KeepsKey(before, after, (id.peer, id.service))
    ensures Attached(after, saved, id, protocol)
  {
    var port := Find(saved, id).value.port;
    var k :| k in before && Serves(before[k], id) && before[k].host == LOCALHOST && before[k].port == port
             && before[k].protocol == Some(protocol) && OnlyUnder(before, id, k);
    assert OfKey(before[k], (id.peer, id.service));
    assert k in after && OnlyUnder(after, id, k);
  }

  lemma ReachedStays(before: RuleTable, after: RuleTable, saved: seq<Record>, p: Proc)
    requires p.call.Attach? && Reached(before, saved, p) && KeepsKey(before, after, KeyOf(p))
    ensures Reached(after, saved, p)
  {
    var n := |p.call.endpoints| - |p.vars.todo|;
    forall j | 0 <= j < n ensures Attached(after, saved, EntryOf(p, j), p.call.endpoints[j].protocol) {
      AttachedStays(before, after, saved, EntryOf(p, j), p.call.endpoints[j].protocol);
    }
  }

  /** A detach that lists none of the service's rules takes nothing from it. */
  lemma AchievedStays(before: RuleTable, after: RuleTable, saved: seq<Record>, p: Proc)
    requires p.call.Attach? && Achieved(before, saved, p) && KeepsKey(before, after, KeyOf(p))
    ensures Achieved(after, saved, p)
  {
    if Reached(before, saved, p) {
      ReachedStays(before, after, saved, p);
    }
    if p.pc.Save? {
      FitsStays(before, after, p);
    }
  }

  lemma FitsStays(before: RuleTable, after: RuleTable, p: Proc)
    requires p.call.Attach? && p.pc.Save? && IsCurrentJob(p, p.pc.job) && KeepsKey(before, after, KeyOf(p))
    ensures forall k :: RuleFits(before, k, p.pc.job) ==> RuleFits(after, k, p.pc.job)
  {
    forall k | RuleFits(before, k, p.pc.job) ensures RuleFits(after, k, p.pc.job) {
      assert OfKey(before[k], KeyOf(p));
    }
  }

  // ---------- the attach's own steps ----------

  /** The process holds the lock at this point, with what the invariant gives it, and has achieved its part. */
  ghost predicate At(s: State, me: Pid, pc: Pc) {
    AtPc(s, me, pc) && s.procs[me].call.Attach? && DistinctNames(s.procs[me].call.endpoints)
    && Achieved(s.rules, s.saved, s.procs[me])
  }

  ghost predicate AchievedIn(t: State, me: Pid) {
    me in t.procs && t.procs[me].call.Attach? && Achieved(t.rules, t.saved, t.procs[me])
  }

  lemma ReadPrefsAchieves(s: State, me: Pid, c: Choice)
    requires At(s, me, ReadPrefs)
    ensures AchievedIn(DoReadPrefs(s, me, c), me)
  {
  }

  lemma ListRulesAchieves(s: State, me: Pid)
    requires At(s, me, ListRules)
    ensures AchievedIn(DoListRules(s, me), me)
  {
    var p := s.procs[me];
    assert p.call.endpoints[0..] == p.call.endpoints;
  }

  lemma RelistAchieves(s: State, me: Pid)
    requires At(s, me, Relist)
    ensures AchievedIn(DoRelist(s, me), me)
  {
  }

  lemma NextAchieves(s: State, me: Pid, c: Choice, t: State)
    requires At(s, me, NextEndpoint) && DoNextEndpoint(s, me, c) == Some(t)
    ensures AchievedIn(t, me)
  {
    var p := s.procs[me];
    if p.vars.todo != [] {
      var endpoint := p.vars.todo[0];
      var id := IdOf(p.call.peer, p.call.service, endpoint);
      var planned := PlanEndpoint(p.vars.prefs, p.vars.reserved, c.found, id, endpoint.protocol, p.call.port, c.free, c.ok);
      if planned.Ok? {
        PlanFits(p.vars.prefs, p.vars.reserved, c.found, id, endpoint.protocol, p.call.port, c.free, c.ok);
        PlannedAchieves(s, me, planned.value, t);
      }
    }
  }

  lemma PlannedAchieves(s: State, me: Pid, plan: Plan, t: State)
    requires At(s, me, NextEndpoint) && IsCurrentJob(s.procs[me], plan.job)
    requires IsFound(s.procs[me].vars.active, plan.job.record.id, plan.job.displaced)
    requires plan.job.matches ==> plan.job.displaced.Some? && OwnsPort(plan.job.displaced, plan.job.record.port)
                                  && plan.job.displaced.value.1.protocol == Some(plan.job.protocol)
    requires var next := if plan.job.matches then Save(plan.job, None)
                         else if plan.job.displaced.Some? then RemoveOld(plan.job)
                         else StartRule(plan.job);
             t == GotoWith(s, me, next, s.procs[me].vars.(reserved := plan.reserved))
    ensures AchievedIn(t, me)
  {
    if plan.job.displaced.Some? {
      assert OfKey(plan.job.displaced.value.1, KeyOf(s.procs[me]));
    }
  }

  /** Only rules of the entry at hand differ. */
  ghost predicate OthersStay(before: RuleTable, after: RuleTable, id: Identity) {
    (forall k <- before :: !Serves(before[k], id) ==> k in after && after[k] == before[k])
    && (forall k <- after :: !Serves(after[k], id) ==> k in before && before[k] == after[k])
  }

  /** Work on the entry at hand leaves the finished ones attached. */
  lemma ReachedDespite(s: State, rules: RuleTable, saved: seq<Record>, p: Proc)
    requires p.call.Attach? && DistinctNames(p.call.endpoints) && p.vars.todo != [] && Reached(s.rules, s.saved, p)
    requires var id := IdOf(p.call.peer, p.call.service, p.vars.todo[0]);
             OthersStay(s.rules, rules, id) && forall other :: other != id ==> Find(saved, other) == Find(s.saved, other)
    ensures Reached(rules, saved, p)
  {
    var n := |p.call.endpoints| - |p.vars.todo|;
    var id := IdOf(p.call.peer, p.call.service, p.vars.todo[0]);
    assert p.vars.todo[0] == p.call.endpoints[n];
    forall j | 0 <= j < n ensures Attached(rules, saved, EntryOf(p, j), p.call.endpoints[j].protocol) {
      assert p.call.endpoints[j].name != p.call.endpoints[n].name;
      AttachedDespite(s.rules, rules, s.saved, saved, EntryOf(p, j), p.call.endpoints[j].protocol, id);
    }
  }

  lemma AttachedDespite(before: RuleTable, after: RuleTable, saved: seq<Record>, saved': seq<Record>,
                        id: Identity, protocol: string, other: Identity)
    requires Attached(before, saved, id, protocol) && id != other
    requires OthersStay(before, after, other) && Find(saved', id) == Find(saved, id)
    ensures Attached(after, saved', id, protocol)
  {
    var port := Find(saved, id).value.port;
    var k :| k in before && Serves(before[k], id) && before[k].host == LOCALHOST && before[k].port == port
             && before[k].protocol == Some(protocol) && OnlyUnder(before, id, k);
    assert !Serves(before[k], other);
    assert forall j <- after :: Serves(after[j], id) ==> !Serves(after[j], other);
    assert OnlyUnder(after, id, k);
  }

  lemma RemoveAchieves(s: State, me: Pid, job: Job)
    requires At(s, me, RemoveOld(job)) && job.displaced.Some?
    ensures AchievedIn(DoRemoveOld(s, me, job), me)
  {
    var id := job.displaced.value.0;
    if id in s.rules {
      assert OthersStay(s.rules, Without(s.rules, id), job.record.id);
      ReachedDespite(s, Without(s.rules, id), s.saved, s.procs[me]);
    }
  }

  lemma StartAchieves(s: State, me: Pid, c: Choice, job: Job)
    requires At(s, me, StartRule(job))
    ensures AchievedIn(DoStartRule(s, me, c, job), me)
  {
    if RuleId(RuleFor(job.record, job.protocol)) !in s.rules {
      StartedAchieves(s, me, job);
    }
  }

  lemma StartedAchieves(s: State, me: Pid, job: Job)
    requires At(s, me, StartRule(job)) && RuleId(RuleFor(job.record, job.protocol)) !in s.rules
    ensures var rule := RuleFor(job.record, job.protocol);
            AchievedIn(Goto(s.(rules := s.rules[RuleId(rule) := rule]), me, Save(job, Some(RuleId(rule)))), me)
  {
    var rule := RuleFor(job.record, job.protocol);
    var after := s.rules[RuleId(rule) := rule];
    assert OthersStay(s.rules, after, job.record.id);
    ReachedDespite(s, after, s.saved, s.procs[me]);
  }

  lemma SaveAchieves(s: State, me: Pid, c: Choice, job: Job, started: Option<string>)
    requires At(s, me, Save(job, started))
    ensures AchievedIn(DoSave(s, me, c, job, started), me)
  {
    if c.ok {
      var p := s.procs[me];
      var updated := Upsert(p.vars.prefs, job.record);
      forall other ensures Find(updated, other) == if other == job.record.id then Some(job.record) else Find(s.saved, other) {
        UpsertThenFind(s.saved, job.record, other);
      }
      ReachedDespite(s, s.rules, updated, p);
      CurrentAttached(s.rules, updated, p, job, if job.matches then job.displaced.value.0 else started.value);
      OneMoreReached(s.rules, updated, p, DoSave(s, me, c, job, started).procs[me]);
    }
  }

  lemma CurrentAttached(rules: RuleTable, saved: seq<Record>, p: Proc, job: Job, k: string)
    requires IsCurrentJob(p, job) && RuleFits(rules, k, job) && AtMostOneEach(rules) && Find(saved, job.record.id) == Some(job.record)
    ensures Attached(rules, saved, job.record.id, job.protocol)
  {
    forall j <- rules | Serves(rules[j], job.record.id) ensures j == k {
      AtMostOneServes(rules, job.record.id, j, k);
    }
    assert OnlyUnder(rules, job.record.id, k);
  }

  lemma OneMoreReached(rules: RuleTable, saved: seq<Record>, p: Proc, q: Proc)
    requires p.call.Attach? && q.call == p.call && p.vars.todo != [] && q.vars.todo == p.vars.todo[1..]
    requires Reached(rules, saved, p)
    requires Attached(rules, saved, IdOf(p.call.peer, p.call.service, p.vars.todo[0]), p.vars.todo[0].protocol)
    ensures Reached(rules, saved, q)
  {
    var n := |p.call.endpoints| - |p.vars.todo|;
    assert p.vars.todo[0] == p.call.endpoints[n];
    assert q.vars.todo == p.call.endpoints[n + 1..];
  }

  lemma UndoStartAchieves(s: State, me: Pid, c: Choice, t: State)
    requires me in s.procs && At(s, me, s.procs[me].pc) && s.procs[me].pc.UndoStart? && AttachStep(s, me, c) == Some(t)
    ensures AchievedIn(t, me)
  {
  }

  lemma RestoresAchieve(s: State, me: Pid, c: Choice, t: State)
    requires me in s.procs && At(s, me, s.procs[me].pc) && RestoreStep(s, me, c) == Some(t)
    requires var pc := s.procs[me].pc; pc.RestoreOld? || pc.ReAdd? || pc.Recheck? || pc.Revoke?
    ensures AchievedIn(t, me)
  {
  }

  lemma ReplacingAchieves(s: State, me: Pid, c: Choice, t: State)
    requires me in s.procs && At(s, me, s.procs[me].pc) && AttachStep(s, me, c) == Some(t)
    requires var pc := s.procs[me].pc; pc.RemoveOld? || pc.StartRule? || pc.Save? || pc.NextEndpoint?
    ensures AchievedIn(t, me)
  {
    match s.procs[me].pc {
      case NextEndpoint => NextAchieves(s, me, c, t);
      case RemoveOld(job) => RemoveAchieves(s, me, job);
      case StartRule(job) => StartAchieves(s, me, c, job);
      case Save(job, started) => SaveAchieves(s, me, c, job, started);
    }
  }

  lemma ListingAchieves(s: State, me: Pid, c: Choice, t: State)
    requires me in s.procs && At(s, me, s.procs[me].pc) && StepOf(s, me, c) == Some(t)
    requires var pc := s.procs[me].pc; pc.ReadPrefs? || pc.ListRules? || pc.Relist?
    ensures AchievedIn(t, me)
  {
    match s.procs[me].pc {
      case ReadPrefs => ReadPrefsAchieves(s, me, c);
      case ListRules => ListRulesAchieves(s, me);
      case Relist => RelistAchieves(s, me);
    }
  }

  /** A step of the attach itself, up to the last. */
  lemma OwnStepAchieves(s: State, me: Pid, c: Choice, t: State)
    requires me in s.procs && At(s, me, s.procs[me].pc) && StepOf(s, me, c) == Some(t) && !s.procs[me].pc.ClearMark?
    ensures AchievedIn(t, me)
  {
    var pc := s.procs[me].pc;
    if pc.RemoveOld? || pc.StartRule? || pc.Save? || pc.NextEndpoint? {
      ReplacingAchieves(s, me, c, t);
    } else if pc.ReadPrefs? || pc.ListRules? || pc.Relist? {
      ListingAchieves(s, me, c, t);
    } else {
      OtherPcs(s, me);
      if s.procs[me].pc.UndoStart? {
        UndoStartAchieves(s, me, c, t);
      } else {
        RestoresAchieve(s, me, c, t);
      }
    }
  }

  lemma OtherPcs(s: State, me: Pid)
    requires me in s.procs && At(s, me, s.procs[me].pc)
    ensures var pc := s.procs[me].pc;
            pc.RemoveOld? || pc.StartRule? || pc.Save? || pc.NextEndpoint? || pc.ReadPrefs? || pc.ListRules? || pc.Relist?
            || pc.ClearMark? || pc.UndoStart? || pc.RestoreOld? || pc.ReAdd? || pc.Recheck? || pc.Revoke?
  {
  }

  lemma ClearMarkReturnsOk(s: State, me: Pid, c: Choice, t: State)
    requires me in s.procs && s.procs[me].pc.ClearMark? && StepOf(s, me, c) == Some(t)
    ensures s.procs[me].call.Attach? && me in t.procs && t.procs[me].pc == Returned(true)
    ensures t.rules == s.rules && t.saved == s.saved
    ensures t.detached == s.detached - {(s.procs[me].call.peer, s.procs[me].call.service)}
  {
  }

  // ---------- the steps beside it, and whole runs ----------

  /** While the attach holds the lock, only detaches move, and one that lists none of its rules takes none. */
  lemma OtherStepKeeps(s: State, e: Event, t: State, me: Pid)
    requires Inv(s) && Next(s, e, t) && s.lock == Some(me) && me in s.procs && s.procs[me].call.Attach?
    requires !(e.Step? && e.pid == me) && NoneListed(s, KeyOf(s.procs[me]))
    ensures me in t.procs && t.procs[me] == s.procs[me] && t.saved == s.saved && t.lock == s.lock
    ensures KeepsKey(s.rules, t.rules, KeyOf(s.procs[me]))
  {
    if e.Step? {
      var d := e.pid;
      assert !Holding(s.procs[d]);
      if s.procs[d].call.Detach? {
        DetachBystands(s, d, e.choice, t);
        SweepKeepsKey(s, d, e.choice, t, KeyOf(s.procs[me]));
      }
    }
  }

  lemma SweepKeepsKey(s: State, d: Pid, c: Choice, t: State, key: Key)
    requires d in s.procs && s.procs[d].call.Detach? && StepOf(s, d, c) == Some(t) && NoneListed(s, key)
    requires var pc := s.procs[d].pc; pc.Start? || pc.Scan? || pc.Sweep? || pc.Returned?
    ensures KeepsKey(s.rules, t.rules, key)
  {
    if s.procs[d].pc.Sweep? && s.procs[d].pc.ids != [] {
      assert s.procs[d].pc.ids[0] in s.procs[d].pc.ids;
    }
  }

  /** The attach is under way and nothing it has done was undone. */
  ghost predicate Working(s: State, me: Pid, call: Call) {
    me in s.procs && s.procs[me].call == call && call.Attach?
    && (s.procs[me].pc.Start? || s.procs[me].pc == Returned(false)
        || (Holding(s.procs[me]) && Achieved(s.rules, s.saved, s.procs[me])))
  }

  /** A step of the attach that does not return Ok. */
  lemma OwnWorkingStep(s: State, c: Choice, t: State, me: Pid, call: Call)
    requires Inv(s) && Working(s, me, call) && DistinctNames(call.endpoints) && StepOf(s, me, c) == Some(t)
    requires me in t.procs && t.procs[me].pc != Returned(true)
    ensures Working(t, me, call)
  {
    StepTouchesOnlyMe(s, me, c, t);
    if s.procs[me].pc.ClearMark? {
      ClearMarkReturnsOk(s, me, c, t);
    } else if s.procs[me].pc.Start? {
      StartBegins(s, me, c, t);
    } else {
      OwnStepAchieves(s, me, c, t);
    }
  }

  lemma StartBegins(s: State, me: Pid, c: Choice, t: State)
    requires me in s.procs && s.procs[me].pc.Start? && s.procs[me].call.Attach? && StepOf(s, me, c) == Some(t)
    ensures me in t.procs && t.procs[me].pc.ReadPrefs?
  {
  }

  lemma WorkingStep(s: State, e: Event, t: State, me: Pid, call: Call)
    requires Inv(s) && Next(s, e, t) && Working(s, me, call) && DistinctNames(call.endpoints)
    requires s.lock == Some(me) ==> NoneListed(s, (call.peer, call.service))
    requires me in t.procs && t.procs[me].pc != Returned(true)
    ensures Working(t, me, call)
  {
    if e.Step? && e.pid == me {
      OwnWorkingStep(s, e.choice, t, me, call);
    } else if Holding(s.procs[me]) {
      OtherStepKeeps(s, e, t, me);
      AchievedStays(s.rules, t.rules, s.saved, s.procs[me]);
    } else if e.Step? {
      StepTouchesOnlyMe(s, e.pid, e.choice, t);
    }
  }

  /** The service is not marked, and each endpoint has exactly one rule, on its saved port and with its protocol. */
  ghost predicate AllAttached(s: State, call: Call)
    requires call.Attach?
  {
    (call.peer, call.service) !in s.detached
    && forall j :: 0 <= j < |call.endpoints| ==>
         Attached(s.rules, s.saved, IdOf(call.peer, call.service, call.endpoints[j]), call.endpoints[j].protocol)
  }

  /** An attach returns Ok only in the step that clears the mark, and then every endpoint is attached. */
  lemma OkIsAttached(s: State, e: Event, t: State, me: Pid, call: Call)
    requires Inv(s) && Next(s, e, t) && Working(s, me, call) && DistinctNames(call.endpoints)
    requires me in t.procs && t.procs[me].pc == Returned(true)
    ensures AllAttached(t, call)
  {
    OkIsClearMark(s, e, t, me, call);
    ClearMarkReturnsOk(s, me, e.choice, t);
    forall j | 0 <= j < |call.endpoints|
      ensures Attached(t.rules, t.saved, IdOf(call.peer, call.service, call.endpoints[j]), call.endpoints[j].protocol)
    {
      assert Attached(s.rules, s.saved, EntryOf(s.procs[me], j), call.endpoints[j].protocol);
    }
  }

  lemma OkIsClearMark(s: State, e: Event, t: State, me: Pid, call: Call)
    requires Inv(s) && Next(s, e, t) && Working(s, me, call) && DistinctNames(call.endpoints)
    requires me in t.procs && t.procs[me].pc == Returned(true)
    ensures e.Step? && e.pid == me && s.procs[me].pc.ClearMark?
  {
    if e.Step? {
      if e.pid == me {
        OwnReturn(s, me, e.choice, t, call);
      } else {
        StepTouchesOnlyMe(s, e.pid, e.choice, t);
      }
    }
  }

  lemma OwnReturn(s: State, me: Pid, c: Choice, t: State, call: Call)
    requires Inv(s) && Working(s, me, call) && DistinctNames(call.endpoints) && StepOf(s, me, c) == Some(t)
    ensures me in t.procs && (t.procs[me].pc == Returned(true) ==> s.procs[me].pc.ClearMark?)
  {
    StepTouchesOnlyMe(s, me, c, t);
    if s.procs[me].pc.Start? {
      StartBegins(s, me, c, t);
    } else if !s.procs[me].pc.ClearMark? {
      OwnStepAchieves(s, me, c, t);
    }
  }

  /** The call has not returned Ok, and while it holds the lock no detach lists a rule of the service. */
  ghost predicate GoesOn(s: State, me: Pid, key: Key) {
    me in s.procs && s.procs[me].pc != Returned(true) && (s.lock == Some(me) ==> NoneListed(s, key))
  }

  lemma {:induction false} WorkingAlways(run: seq<State>, events: seq<Event>, i: nat, k: nat, me: Pid, call: Call)
    requires IsRun(run, events) && i <= k <= |events| && Working(run[i], me, call) && DistinctNames(call.endpoints)
    requires forall m :: i <= m <= k ==> GoesOn(run[m], me, (call.peer, call.service))
    ensures Working(run[k], me, call)
  {
    if i < k {
      WorkingAlways(run, events, i, k - 1, me, call);
      assert GoesOn(run[k - 1], me, (call.peer, call.service)) && GoesOn(run[k], me, (call.peer, call.service));
      OneMoreStep(run, events, k - 1, me, call);
    }
  }

  lemma OneMoreStep(run: seq<State>, events: seq<Event>, k: nat, me: Pid, call: Call)
    requires IsRun(run, events) && k < |events| && Working(run[k], me, call) && DistinctNames(call.endpoints)
    requires GoesOn(run[k], me, (call.peer, call.service)) && me in run[k + 1].procs && run[k + 1].procs[me].pc != Returned(true)
    ensures Working(run[k + 1], me, call)
  {
    StepAt(run, events, k);
    WorkingStep(run[k], events[k], run[k + 1], me, call);
  }

  lemma StepAt(run: seq<State>, events: seq<Event>, k: nat)
    requires IsRun(run, events) && k < |events|
    ensures Inv(run[k]) && Next(run[k], events[k], run[k + 1])
  {
    InvAlways(run, events, k);
    assert Follows(run, events, k);
  }

  lemma LastStep(run: seq<State>, events: seq<Event>, k: nat, me: Pid, call: Call)
    requires IsRun(run, events) && k < |events| && Working(run[k], me, call) && DistinctNames(call.endpoints)
    requires me in run[k + 1].procs && run[k + 1].procs[me].pc == Returned(true)
    ensures AllAttached(run[k + 1], call)
  {
    StepAt(run, events, k);
    OkIsAttached(run[k], events[k], run[k + 1], me, call);
  }

  /**
   * An attach of endpoints with distinct names returns Ok at step `k`. If, while it held the lock, no
   * running detach had an id of a rule of its service on its list, then each endpoint has exactly one
   * rule, on its saved port and with its protocol, and the mark is cleared. Detaches of other services,
   * and other calls waiting for the lock, may run beside it as they like.
   */
  lemma AttachHasItsRules(run: seq<State>, events: seq<Event>, i: nat, k: nat, me: Pid)
    requires IsRun(run, events) && i < k <= |events|
    requires me in run[i].procs && run[i].procs[me].pc.Start? && run[i].procs[me].call.Attach?
    requires var names := run[i].procs[me].call.endpoints; forall j, k :: 0 <= j < k < |names| ==> names[j].name != names[k].name
    requires forall m :: i <= m < k ==> GoesOn(run[m], me, KeyOf(run[i].procs[me]))
    requires me in run[k].procs && run[k].procs[me].pc == Returned(true)
    ensures AllAttached(run[k], run[i].procs[me].call)
    ensures var call, s := run[i].procs[me].call, run[k];
            (call.peer, call.service) !in s.detached
            && forall e <- call.endpoints :: exists r <- s.saved, id <- s.rules ::
                 var rule := s.rules[id];
                 && r.id == Identity(call.peer, call.service, e.name)
                 && rule.peer == call.peer && rule.service == Some(call.service) && rule.entry == Some(e.name)
                 && rule.host == "127.0.0.1" && rule.port == r.port && rule.protocol == Some(e.protocol)
  {
    hide AllAttached;
    var call := run[i].procs[me].call;
    WorkingAlways(run, events, i, k - 1, me, call);
    LastStep(run, events, k - 1, me, call);
    forall e | e in call.endpoints
      ensures exists r <- run[k].saved, id <- run[k].rules ::
                 var rule := run[k].rules[id];
                 && r.id == Identity(call.peer, call.service, e.name)
                 && rule.peer == call.peer && rule.service == Some(call.service) && rule.entry == Some(e.name)
                 && rule.host == "127.0.0.1" && rule.port == r.port && rule.protocol == Some(e.protocol)
    {
      AttachedFields(run[k], call, e);
    }
  }

  lemma AttachedFields(s: State, call: Call, e: Endpoint)
    requires call.Attach? && AllAttached(s, call) && e in call.endpoints
    ensures exists r <- s.saved, id <- s.rules ::
              var rule := s.rules[id];
              && r.id == Identity(call.peer, call.service, e.name)
              && rule.peer == call.peer && rule.service == Some(call.service) && rule.entry == Some(e.name)
              && rule.host == "127.0.0.1" && rule.port == r.port && rule.protocol == Some(e.protocol)
  {
    var j :| 0 <= j < |call.endpoints| && call.endpoints[j] == e;
    assert Attached(s.rules, s.saved, IdOf(call.peer, call.service, call.endpoints[j]), call.endpoints[j].protocol);
    FindIsMember(s.saved, IdOf(call.peer, call.service, e));
  }
}
