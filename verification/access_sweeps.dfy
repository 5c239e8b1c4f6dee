/** What the removals that are under way still take: which ids, of those they have listed. */
module AccessSweeps {
  import opened Wrappers
  import opened Widths
  import opened LocalPreferences
  import opened Forwarding
  import opened AccessPlan
  import opened AccessProtocol
  import opened AccessSafety
  import opened ServiceAccesses
  import opened AccessHistory
  import AccessStaleList

  // ---------- sweeps, in any order ----------

  predicate Sweeping(s: State, p: Pid) {
    p in s.procs && s.procs[p].pc.Sweep?
  }

  /** The next id of the call's list, or its end; nothing, if the call is not going through a list. */
  function OneSweep(s: State, p: Pid): State {
    if Sweeping(s, p) then DoSweep(s, p, s.procs[p].pc.ids) else s
  }

  /** The calls named go on with their lists, in this order. */
  function Sweeps(s: State, schedule: seq<Pid>): State {
    if schedule == [] then s else OneSweep(Sweeps(s, schedule[..|schedule| - 1]), schedule[|schedule| - 1])
  }

  lemma SweepIsAStep(s: State, p: Pid, c: Choice)
    requires Sweeping(s, p)
    ensures Next(s, Step(p, c), OneSweep(s, p))
  {
  }

  /** So what the calls come to is reached by a run. */
  lemma {:induction false} SweepsAreSteps(s: State, schedule: seq<Pid>)
    requires AccessStaleList.Reachable(s)
    ensures AccessStaleList.Reachable(Sweeps(s, schedule))
    decreases |schedule|
  {
    hide AccessStaleList.Reachable, OneSweep, Next;
    if schedule != [] {
      var t, p := Sweeps(s, schedule[..|schedule| - 1]), schedule[|schedule| - 1];
      SweepsAreSteps(s, schedule[..|schedule| - 1]);
      if Sweeping(t, p) {
        var c := Choice(true, [], None, None);
        SweepIsAStep(t, p, c);
        AccessStaleList.Onward(t, Step(p, c), OneSweep(t, p));
      } else {
        assert OneSweep(t, p) == t by { NoSweep(t, p); }
      }
    }
  }

  lemma NoSweep(s: State, p: Pid)
    requires !Sweeping(s, p)
    ensures OneSweep(s, p) == s
  {
  }

  /** The id is on the list, and active like all the ids before it: the first that is not ends the removal. */
  ghost predicate Gets(ids: seq<string>, rules: RuleTable, id: string) {
    exists n: nat :: n < |ids| && ids[n] == id && AllActive(ids[..n + 1], rules)
  }

  predicate AllActive(ids: seq<string>, rules: RuleTable) {
    forall id <- ids :: id in rules
  }

  ghost predicate Takes(s: State, p: Pid, id: string) {
    Sweeping(s, p) && Gets(s.procs[p].pc.ids, s.rules, id)
  }

  // ---------- lists name an id once ----------

  predicate NamesOnce(ids: seq<string>) {
    forall i, j :: 0 <= i < j < |ids| ==> ids[i] != ids[j]
  }

  predicate ListsNameOnce(s: State) {
    forall p <- s.procs :: Sweeping(s, p) ==> NamesOnce(s.procs[p].pc.ids)
  }

  lemma ListsStep(s: State, e: Event, t: State)
    requires ListsNameOnce(s) && Next(s, e, t)
    ensures ListsNameOnce(t)
  {
    if e.Step? {
      StepTouchesOnlyMe(s, e.pid, e.choice, t);
      if Sweeping(t, e.pid) {
        ListOfStep(s, e.pid, e.choice, t);
      }
    }
  }

  lemma ListOfStep(s: State, me: Pid, c: Choice, t: State)
    requires me in s.procs && StepOf(s, me, c) == Some(t) && me in t.procs && t.procs[me].pc.Sweep?
    requires Sweeping(s, me) ==> NamesOnce(s.procs[me].pc.ids)
    ensures NamesOnce(t.procs[me].pc.ids)
  {
    hide CollectStep, RestoreStep, AttachStep, Restores;
    if Collects(s.procs[me].pc) {
      ListOfCollectStep(s, me, c, t);
    } else if Restores(s.procs[me].pc) {
      RestoresNeverSweep(s, me, c, t);
    } else {
      AttachesNeverSweep(s, me, c, t);
    }
  }

  lemma ListOfCollectStep(s: State, me: Pid, c: Choice, t: State)
    requires me in s.procs && CollectStep(s, me, c) == Some(t) && me in t.procs && t.procs[me].pc.Sweep?
    requires Sweeping(s, me) ==> NamesOnce(s.procs[me].pc.ids)
    ensures NamesOnce(t.procs[me].pc.ids)
  {
    var ids := t.procs[me].pc.ids;
    if s.procs[me].pc.Scan? {
      assert ids == c.ids && IsScan(s.rules, Scope(s.procs[me].call), ids);
    }
  }

  lemma RestoresNeverSweep(s: State, me: Pid, c: Choice, t: State)
    requires me in s.procs && RestoreStep(s, me, c) == Some(t) && me in t.procs
    ensures !t.procs[me].pc.Sweep?
  {
    hide IsFound, RuleFor, Find;
  }

  lemma AttachesNeverSweep(s: State, me: Pid, c: Choice, t: State)
    requires me in s.procs && AttachStep(s, me, c) == Some(t) && me in t.procs
    ensures !t.procs[me].pc.Sweep?
  {
    hide IsFound, RuleFor, PlanEndpoint, PortsOf, Upsert, RuleId;
  }

  lemma {:induction false} ListsAlwaysNameOnce(run: seq<State>, events: seq<Event>, k: nat)
    requires IsRun(run, events) && k <= |events|
    ensures ListsNameOnce(run[k])
  {
    if k > 0 {
      ListsAlwaysNameOnce(run, events, k - 1);
      assert Follows(run, events, k - 1);
      ListsStep(run[k - 1], events[k - 1], run[k]);
    }
  }

  // ---------- what is taken was to be got ----------

  lemma SweepShrinks(s: State, p: Pid)
    ensures var t := OneSweep(s, p);
            Shrinks(s.rules, t.rules) && t.saved == s.saved && t.detached == s.detached && t.procs.Keys == s.procs.Keys
    ensures forall q <- s.procs :: q != p ==> OneSweep(s, p).procs[q] == s.procs[q]
  {
  }

  lemma {:induction false} SweepsShrink(s: State, schedule: seq<Pid>)
    ensures var t := Sweeps(s, schedule);
            Shrinks(s.rules, t.rules) && t.saved == s.saved && t.detached == s.detached && t.procs.Keys == s.procs.Keys
    decreases |schedule|
  {
    hide OneSweep;
    if schedule != [] {
      SweepsShrink(s, schedule[..|schedule| - 1]);
      SweepShrinks(Sweeps(s, schedule[..|schedule| - 1]), schedule[|schedule| - 1]);
    }
  }

  /** The call has gone on by `m` ids, each of them active at first. */
  predicate WentOn(s: State, t: State, p: Pid, m: nat) {
    Sweeping(s, p) && p in t.procs && m <= |s.procs[p].pc.ids|
    && t.procs[p].pc == Sweep(s.procs[p].pc.ids[m..]) && AllActive(s.procs[p].pc.ids[..m], s.rules)
  }

  lemma {:induction false} HowFar(s: State, schedule: seq<Pid>, p: Pid) returns (m: nat)
    requires Sweeping(Sweeps(s, schedule), p)
    ensures WentOn(s, Sweeps(s, schedule), p, m)
    decreases |schedule|
  {
    hide DoSweep;
    if schedule == [] {
      m := 0;
    } else {
      var before := schedule[..|schedule| - 1];
      var t, q := Sweeps(s, before), schedule[|schedule| - 1];
      SweepShrinks(t, q);
      StaysSweeping(t, p, q);
      m := HowFar(s, before, p);
      SweepsShrink(s, before);
      m := OneFurther(s, t, p, q, m);
    }
  }

  lemma StaysSweeping(t: State, p: Pid, q: Pid)
    requires Sweeping(OneSweep(t, q), p)
    ensures Sweeping(t, p)
  {
  }

  lemma OneFurther(s: State, t: State, p: Pid, q: Pid, m: nat) returns (n: nat)
    requires WentOn(s, t, p, m) && Shrinks(s.rules, t.rules) && Sweeping(OneSweep(t, q), p)
    ensures WentOn(s, OneSweep(t, q), p, n)
  {
    var list := s.procs[p].pc.ids;
    if p == q {
      n := m + 1;
      assert list[m..][1..] == list[n..];
      assert list[..n] == list[..m] + [list[m]];
      assert list[m..][0] == list[m];
    } else {
      n := m;
    }
  }

  /** A rule that is gone was taken by one of the calls that went on. */
  lemma {:induction false} Taker(s: State, schedule: seq<Pid>, id: string) returns (p: Pid)
    requires id in s.rules && id !in Sweeps(s, schedule).rules
    ensures p in schedule && Takes(s, p, id)
    decreases |schedule|
  {
    hide DoSweep;
    var before, q := schedule[..|schedule| - 1], schedule[|schedule| - 1];
    var t := Sweeps(s, before);
    if id !in t.rules {
      p := Taker(s, before, id);
    } else {
      p := q;
      RemovesItsFirst(t, p, id);
      var m := HowFar(s, before, p);
      var list := s.procs[p].pc.ids;
      assert list[m..][0] == list[m];
      assert list[..m + 1] == list[..m] + [list[m]];
      assert AllActive(list[..m + 1], s.rules);
    }
  }

  lemma RemovesItsFirst(t: State, p: Pid, id: string)
    requires id in t.rules && id !in OneSweep(t, p).rules
    ensures Sweeping(t, p) && t.procs[p].pc.ids != [] && t.procs[p].pc.ids[0] == id
  {
  }

  // ---------- what is to be got is taken, alone ----------

  function Alone(p: Pid, n: nat): seq<Pid> {
    seq(n, _ => p)
  }

  ghost predicate Less(before: RuleTable, after: RuleTable, ids: seq<string>) {
    forall id :: id in after <==> id in before && id !in ids
  }

  lemma {:induction false} GoesThrough(s: State, p: Pid, n: nat)
    requires Sweeping(s, p) && NamesOnce(s.procs[p].pc.ids) && n <= |s.procs[p].pc.ids|
    requires AllActive(s.procs[p].pc.ids[..n], s.rules)
    ensures WentOn(s, Sweeps(s, Alone(p, n)), p, n)
    ensures Less(s.rules, Sweeps(s, Alone(p, n)).rules, s.procs[p].pc.ids[..n])
    decreases n
  {
    hide DoSweep;
    var list := s.procs[p].pc.ids;
    if n == 0 {
      assert list[0..] == list;
    } else {
      assert Alone(p, n)[..n - 1] == Alone(p, n - 1);
      assert list[..n] == list[..n - 1] + [list[n - 1]];
      GoesThrough(s, p, n - 1);
      var t := Sweeps(s, Alone(p, n - 1));
      TakesTheNext(s, t, p, n - 1);
    }
  }

  lemma TakesTheNext(s: State, t: State, p: Pid, m: nat)
    requires WentOn(s, t, p, m) && NamesOnce(s.procs[p].pc.ids) && m < |s.procs[p].pc.ids| && s.procs[p].pc.ids[m] in s.rules
    requires Less(s.rules, t.rules, s.procs[p].pc.ids[..m])
    ensures WentOn(s, OneSweep(t, p), p, m + 1) && Less(s.rules, OneSweep(t, p).rules, s.procs[p].pc.ids[..m + 1])
  {
    var list := s.procs[p].pc.ids;
    assert list[m..][0] == list[m] && list[m..][1..] == list[m + 1..];
    assert list[..m + 1] == list[..m] + [list[m]];
    assert list[m] !in list[..m];
  }

  // ---------- exactly ----------

  /** Alone, a removal under way takes a rule if and only if it gets to its id. */
  lemma AloneTakesIff(s: State, p: Pid, id: string)
    requires ListsNameOnce(s) && id in s.rules
    ensures (exists n :: id !in Sweeps(s, Alone(p, n)).rules) <==> Takes(s, p, id)
  {
    if n: nat :| id !in Sweeps(s, Alone(p, n)).rules {
      var q := Taker(s, Alone(p, n), id);
    }
    if Takes(s, p, id) {
      var list := s.procs[p].pc.ids;
      var n: nat :| n < |list| && list[n] == id && AllActive(list[..n + 1], s.rules);
      GoesThrough(s, p, n + 1);
      assert list[..n + 1][n] == id;
    }
  }

  /** Together, in whatever order they go on, the removals under way take what one of them would take alone, and no more. */
  lemma SweepsTakeIff(s: State, id: string)
    requires ListsNameOnce(s) && id in s.rules
    ensures (exists schedule :: id !in Sweeps(s, schedule).rules) <==> exists p :: Takes(s, p, id)
  {
    if schedule :| id !in Sweeps(s, schedule).rules {
      var p := Taker(s, schedule, id);
    }
    if p :| Takes(s, p, id) {
      AloneTakesIff(s, p, id);
    }
  }

  // ---------- an attach that has returned ----------

  /** The rules that serve the endpoints of the call. */
  predicate OfCall(rules: RuleTable, call: Call, id: string)
    requires call.Attach?
  {
    id in rules && ServesOneOf(rules[id], IdsOf(call.peer, call.service, call.endpoints))
  }

  ghost predicate NoneTakes(s: State, call: Call)
    requires call.Attach?
  {
    forall p, id :: Takes(s, p, id) ==> !OfCall(s.rules, call, id)
  }

  lemma AttachedThen(s: State, schedule: seq<Pid>, call: Call)
    requires call.Attach? && AllAttached(s, call) && NoneTakes(s, call)
    ensures AllAttached(Sweeps(s, schedule), call)
  {
    hide Takes, Sweeps;
    var t := Sweeps(s, schedule);
    SweepsShrink(s, schedule);
    forall j | 0 <= j < |call.endpoints|
      ensures Attached(t.rules, t.saved, IdOf(call.peer, call.service, call.endpoints[j]), call.endpoints[j].protocol)
    {
      var id := IdOf(call.peer, call.service, call.endpoints[j]);
      assert Attached(s.rules, s.saved, id, call.endpoints[j].protocol);
      var k := RuleThatServes(s.rules, id, Find(s.saved, id).value.port, call.endpoints[j].protocol);
      assert id in IdsOf(call.peer, call.service, call.endpoints);
      assert OfCall(s.rules, call, k);
      if k !in t.rules {
        var p := Taker(s, schedule, k);
      }
    }
  }

  lemma RuleThatServes(rules: RuleTable, id: Identity, port: U16, protocol: string) returns (k: string)
    requires ServedBy(rules, id, LOCALHOST, port, protocol)
    ensures k in rules && Serves(rules[k], id) && rules[k].host == LOCALHOST && rules[k].port == port
    ensures rules[k].protocol == Some(protocol) && OnlyUnder(rules, id, k)
  {
    k :| k in rules && Serves(rules[k], id) && rules[k].host == LOCALHOST && rules[k].port == port
         && rules[k].protocol == Some(protocol) && OnlyUnder(rules, id, k);
  }

  lemma DetachedThen(s: State, schedule: seq<Pid>, call: Call, k: string)
    requires call.Attach? && AllAttached(s, call) && OfCall(s.rules, call, k) && k !in Sweeps(s, schedule).rules
    ensures !AllAttached(Sweeps(s, schedule), call)
  {
    hide Sweeps;
    var t := Sweeps(s, schedule);
    SweepsShrink(s, schedule);
    var e :| e in call.endpoints && Serves(s.rules[k], IdOf(call.peer, call.service, e));
    var j :| 0 <= j < |call.endpoints| && call.endpoints[j] == e;
    var id := IdOf(call.peer, call.service, e);
    assert Attached(s.rules, s.saved, id, e.protocol);
    var only := RuleThatServes(s.rules, id, Find(s.saved, id).value.port, e.protocol);
    NobodyElseServes(s.rules, t.rules, id, only);
    assert !Attached(t.rules, t.saved, id, call.endpoints[j].protocol);
  }

  lemma NobodyElseServes(before: RuleTable, after: RuleTable, id: Identity, only: string)
    requires only in before && OnlyUnder(before, id, only) && Shrinks(before, after) && only !in after
    ensures forall k <- after :: !Serves(after[k], id)
  {
  }

  /**
   * In every run, whenever the endpoints of an attach are attached (as they are when it returns Ok),
   * the removals under way leave them so, in whatever order they go on, if and only if none of them
   * gets to the id of one of the rules.
   */
  lemma AttachedStaysIff(run: seq<State>, events: seq<Event>, k: nat, call: Call)
    requires IsRun(run, events) && k <= |events| && call.Attach? && AllAttached(run[k], call)
    ensures (forall schedule :: AllAttached(Sweeps(run[k], schedule), call)) <==> NoneTakes(run[k], call)
  {
    hide AllAttached, Takes, Sweeps, OfCall;
    var s := run[k];
    ListsAlwaysNameOnce(run, events, k);
    if NoneTakes(s, call) {
      forall schedule ensures AllAttached(Sweeps(s, schedule), call) {
        AttachedThen(s, schedule, call);
      }
    } else {
      var p, id :| Takes(s, p, id) && OfCall(s.rules, call, id);
      OneIsTaken(s, p, id, call);
    }
  }

  lemma OneIsTaken(s: State, p: Pid, id: string, call: Call)
    requires ListsNameOnce(s) && Takes(s, p, id) && call.Attach? && AllAttached(s, call) && OfCall(s.rules, call, id)
    ensures exists schedule :: !AllAttached(Sweeps(s, schedule), call)
  {
    hide AllAttached, Takes, Sweeps, ListsNameOnce;
    AloneTakesIff(s, p, id);
    var n: nat :| id !in Sweeps(s, Alone(p, n)).rules;
    DetachedThen(s, Alone(p, n), call, id);
  }
}
