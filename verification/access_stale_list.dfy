/** A detach of one service can remove a rule of another: a run that shows it. */
module AccessStaleList {
  import opened Wrappers
  import opened Widths
  import opened LocalPreferences
  import opened Forwarding
  import opened AccessPlan
  import opened AccessProtocol
  import opened AccessSafety
  import opened ServiceAccesses
  import opened AccessHistory
  import opened Sorting
  import Text

  ghost predicate Reachable(s: State) {
    exists run, events :: IsRun(run, events) && run[|events|] == s
  }

  lemma Onward(s: State, e: Event, t: State)
    requires Reachable(s) && Next(s, e, t)
    ensures Reachable(t)
  {
    var run, events :| IsRun(run, events) && run[|events|] == s;
    forall i: nat | i < |events + [e]| ensures Follows(run + [t], events + [e], i) {
      if i < |events| {
        assert Follows(run, events, i);
      }
    }
    assert IsRun(run + [t], events + [e]) && (run + [t])[|events + [e]|] == t;
  }

  /** The set holds the first states and, with a state, the next ones. */
  ghost predicate Closed(reach: State -> bool) {
    (forall s :: Initial(s) ==> reach(s)) && (forall s, e, t :: reach(s) && Next(s, e, t) ==> reach(t))
  }

  lemma RunsAreClosed()
    ensures Closed((s: State) => Reachable(s))
  {
    forall s, e, t | Reachable(s) && Next(s, e, t) ensures Reachable(t) {
      Onward(s, e, t);
    }
    forall s | Initial(s) ensures Reachable(s) {
      StartsReachable(s);
    }
  }

  lemma StartsReachable(s: State)
    requires Initial(s)
    ensures Reachable(s)
  {
    var none: seq<Event> := [];
    assert IsRun([s], none) && [s][|none|] == s;
  }

  /** Two services of one peer whose entries speak one protocol, and one local port for both. */
  datatype Scene = Scene(peer: string, mine: string, other: string, entry: string, protocol: string, port: U16)
  {
    predicate Valid() {
      NonEmpty(peer) && NonEmpty(mine) && NonEmpty(other) && NonEmpty(entry) && mine != other && port != 0
    }

    function RecordFor(service: string): Record {
      Record(Identity(peer, service, entry), LOCALHOST, port, User)
    }

    function Rule(service: string): ForwardingRule {
      RuleFor(RecordFor(service), protocol)
    }

    /** The two rules have one id. */
    function Id(): string {
      RuleId(Rule(other))
    }

    function MyCall(): Call {
      Attach(peer, mine, [Endpoint(entry, protocol)], Some(port))
    }

    function MyJob(): Job {
      Job(RecordFor(mine), protocol, false, None)
    }

    /** One detach of the other service has its list, a second one has done the removal. */
    function Detaching(): map<Pid, Proc> {
      map[1 := Proc(Detach(peer, other), Sweep([Id()]), Vars([], map[], {}, [])),
          2 := Proc(Detach(peer, other), Sweep([]), Vars([], map[], {}, []))]
    }

    function Attaching(rules: RuleTable, saved: seq<Record>, lock: Option<Pid>, pc: Pc, vars: Vars): State {
      State(rules, saved, {(peer, other)}, lock, Detaching()[3 := Proc(MyCall(), pc, vars)])
    }

    /** The attach has returned Ok. */
    function After(): State {
      Attaching(map[Id() := Rule(mine)], [RecordFor(mine)], None, Returned(true),
                Vars([RecordFor(mine)], map[Id() := Rule(mine)], {port}, []))
    }
  }

  // One lemma for each kind of step of the scene.

  lemma Invoked(reach: State -> bool, s: State, me: Pid, call: Call)
    requires Closed(reach) && reach(s) && me !in s.procs
    ensures reach(s.(procs := s.procs[me := Proc(call, Start, Vars([], map[], {}, []))]))
  {
    assert Next(s, Invoke(me, call), s.(procs := s.procs[me := Proc(call, Start, Vars([], map[], {}, []))]));
  }

  lemma Stepped(reach: State -> bool, s: State, me: Pid, c: Choice, t: State)
    requires Closed(reach) && reach(s) && me in s.procs && StepOf(s, me, c) == Some(t)
    ensures reach(t)
  {
    assert Next(s, Step(me, c), t);
  }

  const GO := Choice(true, [], None, None)

  lemma DetachMarks(reach: State -> bool, s: State, me: Pid)
    requires Closed(reach) && reach(s) && me in s.procs && s.procs[me].pc.Start? && s.procs[me].call.Detach?
    ensures reach(Goto(s.(detached := s.detached + {(s.procs[me].call.peer, s.procs[me].call.service)}), me, Scan))
  {
    Stepped(reach, s, me, GO, Goto(s.(detached := s.detached + {(s.procs[me].call.peer, s.procs[me].call.service)}), me, Scan));
  }

  lemma DetachScans(reach: State -> bool, s: State, me: Pid, ids: seq<string>)
    requires Closed(reach) && reach(s) && me in s.procs && s.procs[me].pc.Scan? && IsScan(s.rules, Scope(s.procs[me].call), ids)
    ensures reach(Goto(s, me, Sweep(ids)))
  {
    Stepped(reach, s, me, GO.(ids := ids), Goto(s, me, Sweep(ids)));
  }

  lemma DetachSweeps(reach: State -> bool, s: State, me: Pid, id: string)
    requires Closed(reach) && reach(s) && me in s.procs && s.procs[me].pc == Sweep([id]) && id in s.rules
    ensures reach(Goto(s.(rules := Without(s.rules, id)), me, Sweep([])))
  {
    assert [id][1..] == [];
    Stepped(reach, s, me, GO, Goto(s.(rules := Without(s.rules, id)), me, Sweep([])));
  }

  lemma AttachBegins(reach: State -> bool, s: State, me: Pid)
    requires Closed(reach) && reach(s) && me in s.procs && s.procs[me].pc.Start? && s.procs[me].call.Attach? && s.lock.None?
    ensures reach(GotoWith(s.(lock := Some(me)), me, ListRules, s.procs[me].vars.(prefs := s.saved)))
  {
    var t := Goto(s.(lock := Some(me)), me, ReadPrefs);
    Stepped(reach, s, me, GO, t);
    var u := GotoWith(s.(lock := Some(me)), me, ListRules, s.procs[me].vars.(prefs := s.saved));
    AttachReads(reach, t, me);
    assert GotoWith(t, me, ListRules, t.procs[me].vars.(prefs := t.saved)) == u by {
      assert t.procs[me := u.procs[me]] == u.procs;
    }
  }

  lemma AttachReads(reach: State -> bool, s: State, me: Pid)
    requires Closed(reach) && reach(s) && me in s.procs && s.procs[me].pc.ReadPrefs? && s.procs[me].call.Attach?
    ensures reach(GotoWith(s, me, ListRules, s.procs[me].vars.(prefs := s.saved)))
  {
    Stepped(reach, s, me, GO, GotoWith(s, me, ListRules, s.procs[me].vars.(prefs := s.saved)));
  }

  lemma AttachLists(reach: State -> bool, s: State, me: Pid)
    requires Closed(reach) && reach(s) && me in s.procs && s.procs[me].pc.ListRules?
    ensures reach(DoListRules(s, me))
  {
    Stepped(reach, s, me, GO, DoListRules(s, me));
  }

  lemma AttachPlans(reach: State -> bool, s: State, me: Pid, t: State)
    requires Closed(reach) && reach(s) && me in s.procs && s.procs[me].pc.NextEndpoint? && s.procs[me].call.Attach?
    requires DoNextEndpoint(s, me, GO) == Some(t)
    ensures reach(t)
  {
    Stepped(reach, s, me, GO, t);
  }

  lemma AttachStarts(reach: State -> bool, s: State, me: Pid, job: Job)
    requires Closed(reach) && reach(s) && me in s.procs && s.procs[me].pc == StartRule(job)
    ensures reach(DoStartRule(s, me, GO, job))
  {
    Stepped(reach, s, me, GO, DoStartRule(s, me, GO, job));
  }

  lemma AttachSaves(reach: State -> bool, s: State, me: Pid, job: Job, started: Option<string>)
    requires Closed(reach) && reach(s) && me in s.procs && s.procs[me].pc == Save(job, started)
    ensures reach(DoSave(s, me, GO, job, started))
  {
    Stepped(reach, s, me, GO, DoSave(s, me, GO, job, started));
  }

  lemma AttachRelists(reach: State -> bool, s: State, me: Pid)
    requires Closed(reach) && reach(s) && me in s.procs && s.procs[me].pc.Relist?
    ensures reach(DoRelist(s, me))
  {
    Stepped(reach, s, me, GO, DoRelist(s, me));
  }

  lemma AttachClears(reach: State -> bool, s: State, me: Pid)
    requires Closed(reach) && reach(s) && me in s.procs && s.procs[me].pc.ClearMark? && s.procs[me].call.Attach?
    ensures reach(DoClearMark(s, me))
  {
    Stepped(reach, s, me, GO, DoClearMark(s, me));
  }

  lemma OneRuleIsScanned(sc: Scene)
    requires sc.Valid()
    ensures IsScan(map[sc.Id() := sc.Rule(sc.other)], (sc.peer, Some(sc.other)), [sc.Id()])
  {
  }

  lemma FirstLists(reach: State -> bool, sc: Scene)
    requires Closed(reach) && sc.Valid()
    ensures reach(State(map[sc.Id() := sc.Rule(sc.other)], [], {(sc.peer, sc.other)}, None,
                            map[1 := sc.Detaching()[1]]))
  {
    var rules := map[sc.Id() := sc.Rule(sc.other)];
    var s0 := State(rules, [], {}, None, map[]);
    assert Initial(s0);
    Invoked(reach, s0, 1, Detach(sc.peer, sc.other));
    var s1 := s0.(procs := s0.procs[1 := Proc(Detach(sc.peer, sc.other), Start, Vars([], map[], {}, []))]);
    DetachMarks(reach, s1, 1);
    var s2 := Goto(s1.(detached := s1.detached + {(sc.peer, sc.other)}), 1, Scan);
    OneRuleIsScanned(sc);
    DetachScans(reach, s2, 1, [sc.Id()]);
    assert Goto(s2, 1, Sweep([sc.Id()])).procs == map[1 := sc.Detaching()[1]];
    assert s2.detached == {(sc.peer, sc.other)};
  }

  lemma SecondSweeps(reach: State -> bool, sc: Scene)
    requires Closed(reach) && sc.Valid()
    ensures reach(State(map[], [], {(sc.peer, sc.other)}, None, sc.Detaching()))
  {
    FirstLists(reach, sc);
    var s0 := State(map[sc.Id() := sc.Rule(sc.other)], [], {(sc.peer, sc.other)}, None, map[1 := sc.Detaching()[1]]);
    Invoked(reach, s0, 2, Detach(sc.peer, sc.other));
    var s1 := s0.(procs := s0.procs[2 := Proc(Detach(sc.peer, sc.other), Start, Vars([], map[], {}, []))]);
    DetachMarks(reach, s1, 2);
    var s2 := Goto(s1.(detached := s1.detached + {(sc.peer, sc.other)}), 2, Scan);
    OneRuleIsScanned(sc);
    DetachScans(reach, s2, 2, [sc.Id()]);
    var s3 := Goto(s2, 2, Sweep([sc.Id()]));
    DetachSweeps(reach, s3, 2, sc.Id());
    var s4 := Goto(s3.(rules := Without(s3.rules, sc.Id())), 2, Sweep([]));
    assert s4.rules == map[] && s4.detached == {(sc.peer, sc.other)};
    assert s4.procs == sc.Detaching();
  }

  lemma AttachGetsToItsRule(reach: State -> bool, sc: Scene)
    requires Closed(reach) && sc.Valid()
    ensures reach(sc.Attaching(map[], [], Some(3), StartRule(sc.MyJob()), Vars([], map[], {}, [Endpoint(sc.entry, sc.protocol)])))
  {
    SecondSweeps(reach, sc);
    var todo := [Endpoint(sc.entry, sc.protocol)];
    var s0 := State(map[], [], {(sc.peer, sc.other)}, None, sc.Detaching());
    Invoked(reach, s0, 3, sc.MyCall());
    var s1 := sc.Attaching(map[], [], None, Start, Vars([], map[], {}, []));
    AttachBegins(reach, s1, 3);
    var s2 := sc.Attaching(map[], [], Some(3), ListRules, Vars([], map[], {}, []));
    assert GotoWith(s1.(lock := Some(3)), 3, ListRules, s1.procs[3].vars.(prefs := [])).procs == s2.procs;
    AttachLists(reach, s2, 3);
    var s3 := sc.Attaching(map[], [], Some(3), NextEndpoint, Vars([], map[], {}, todo));
    assert PortsOf([], map[]) == {};
    assert DoListRules(s2, 3).procs == s3.procs;
    AttachPlansItsRule(reach, sc);
  }

  lemma AttachPlansItsRule(reach: State -> bool, sc: Scene)
    requires Closed(reach) && sc.Valid()
    requires reach(sc.Attaching(map[], [], Some(3), NextEndpoint, Vars([], map[], {}, [Endpoint(sc.entry, sc.protocol)])))
    ensures reach(sc.Attaching(map[], [], Some(3), StartRule(sc.MyJob()), Vars([], map[], {}, [Endpoint(sc.entry, sc.protocol)])))
  {
    var todo := [Endpoint(sc.entry, sc.protocol)];
    var s3 := sc.Attaching(map[], [], Some(3), NextEndpoint, Vars([], map[], {}, todo));
    var s4 := sc.Attaching(map[], [], Some(3), StartRule(sc.MyJob()), Vars([], map[], {}, todo));
    PlanForTheScene(sc);
    assert DoNextEndpoint(s3, 3, GO).value.procs == s4.procs;
    AttachPlans(reach, s3, 3, s4);
  }

  lemma PlanForTheScene(sc: Scene)
    requires sc.Valid()
    ensures PlanEndpoint([], {}, None, sc.RecordFor(sc.mine).id, sc.protocol, Some(sc.port), None, true) == Ok(Plan(sc.MyJob(), {}))
  {
    Text.TrimIsCanonical(LOCALHOST);
    assert Released({}, None, None) == {};
  }

  lemma AttachReturns(reach: State -> bool, sc: Scene)
    requires Closed(reach) && sc.Valid()
    ensures reach(sc.After())
  {
    AttachStartsItsRule(reach, sc);
    var todo := [Endpoint(sc.entry, sc.protocol)];
    var rules := map[sc.Id() := sc.Rule(sc.mine)];
    var s1 := sc.Attaching(rules, [], Some(3), Save(sc.MyJob(), Some(sc.Id())), Vars([], map[], {}, todo));
    AttachSaves(reach, s1, 3, sc.MyJob(), Some(sc.Id()));
    SavedForTheScene(sc);
    var s2 := sc.Attaching(rules, [sc.RecordFor(sc.mine)], Some(3), Relist, Vars([sc.RecordFor(sc.mine)], map[], {sc.port}, []));
    assert todo[1..] == [] && s1.procs[3].vars.reserved + {sc.port} == {sc.port};
    assert DoSave(s1, 3, GO, sc.MyJob(), Some(sc.Id())).procs == s2.procs;
    AttachCloses(reach, sc);
  }

  lemma AttachStartsItsRule(reach: State -> bool, sc: Scene)
    requires Closed(reach) && sc.Valid()
    ensures reach(sc.Attaching(map[sc.Id() := sc.Rule(sc.mine)], [], Some(3), Save(sc.MyJob(), Some(sc.Id())),
                               Vars([], map[], {}, [Endpoint(sc.entry, sc.protocol)])))
  {
    AttachGetsToItsRule(reach, sc);
    var todo := [Endpoint(sc.entry, sc.protocol)];
    var rules := map[sc.Id() := sc.Rule(sc.mine)];
    var s0 := sc.Attaching(map[], [], Some(3), StartRule(sc.MyJob()), Vars([], map[], {}, todo));
    AttachStarts(reach, s0, 3, sc.MyJob());
    var s1 := sc.Attaching(rules, [], Some(3), Save(sc.MyJob(), Some(sc.Id())), Vars([], map[], {}, todo));
    assert DoStartRule(s0, 3, GO, sc.MyJob()).procs == s1.procs;
  }

  lemma SavedForTheScene(sc: Scene)
    ensures Upsert([], sc.RecordFor(sc.mine)) == [sc.RecordFor(sc.mine)]
  {
    var one := [sc.RecordFor(sc.mine)];
    assert Overwrite([], one[0]) == one;
    assert one[1..] == [] && Sort(RecordLeq, one[1..]) == [];
    assert Sort(RecordLeq, one) == Insert(RecordLeq, one[0], []);
  }

  lemma AttachCloses(reach: State -> bool, sc: Scene)
    requires Closed(reach) && sc.Valid()
    requires reach(sc.Attaching(map[sc.Id() := sc.Rule(sc.mine)], [sc.RecordFor(sc.mine)], Some(3), Relist,
                                Vars([sc.RecordFor(sc.mine)], map[], {sc.port}, [])))
    ensures reach(sc.After())
  {
    var rules := map[sc.Id() := sc.Rule(sc.mine)];
    var saved := [sc.RecordFor(sc.mine)];
    var v := Vars(saved, rules, {sc.port}, []);
    var s0 := sc.Attaching(rules, saved, Some(3), Relist, v.(active := map[]));
    AttachRelists(reach, s0, 3);
    var s1 := sc.Attaching(rules, saved, Some(3), NextEndpoint, v);
    assert DoRelist(s0, 3).procs == s1.procs;
    var s2 := sc.Attaching(rules, saved, Some(3), ClearMark, v);
    assert Goto(s1, 3, ClearMark).procs == s2.procs;
    AttachPlans(reach, s1, 3, s2);
    AttachClears(reach, s2, 3);
    assert {(sc.peer, sc.other)} - {(sc.peer, sc.mine)} == {(sc.peer, sc.other)};
    assert DoClearMark(s2, 3).procs == sc.After().procs;
  }

  /**
   * Why the condition asks about lists and not about whose detach it is. Only the other service is ever
   * detached, twice; an attach of this one runs between, on the port that became free, and returns Ok
   * with its rule. The first detach then removes that rule: its list was made before, and the id of a
   * rule says nothing of the service.
   */
  lemma StaleListTakesTheRule(sc: Scene)
    requires sc.Valid()
    ensures Reachable(sc.After()) && AllAttached(sc.After(), sc.MyCall())
    ensures forall pid <- sc.After().procs :: sc.After().procs[pid].call.Detach? ==> sc.After().procs[pid].call.service == sc.other
    ensures StepOf(sc.After(), 1, GO).Some? && StepOf(sc.After(), 1, GO).value.rules == map[]
  {
    RunsAreClosed();
    AttachReturns((s: State) => Reachable(s), sc);
    AfterIsAttached(sc);
    SweepEmptiesTheTable(sc);
  }

  lemma AfterIsAttached(sc: Scene)
    requires sc.Valid()
    ensures AllAttached(sc.After(), sc.MyCall())
  {
    var s := sc.After();
    var id := sc.RecordFor(sc.mine).id;
    assert OnlyUnder(s.rules, id, sc.Id()) && Serves(s.rules[sc.Id()], id);
    assert Attached(s.rules, s.saved, id, sc.protocol);
  }

  lemma SweepEmptiesTheTable(sc: Scene)
    requires sc.Valid()
    ensures StepOf(sc.After(), 1, GO).Some? && StepOf(sc.After(), 1, GO).value.rules == map[]
  {
    assert Without(sc.After().rules, sc.Id()) == map[];
  }
}
