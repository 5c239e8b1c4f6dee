/** The cache of device service snapshots, fenced by per-peer epochs: `services.rs`. */
module Snapshots {
  import opened Widths
  import opened Wrappers

  type PeerId = string

  datatype Service = Service(name: string, runtime: string, metadata: string, endpoints: seq<string>, status: string)

  datatype Snapshot = Snapshot(peer: PeerId, services: seq<Service>)

  datatype Store = Store(epochs: map<PeerId, U64>, cache: map<PeerId, Snapshot>)

  function EpochOf(s: Store, peer: PeerId): U64 {
    if peer in s.epochs then s.epochs[peer] else 0
  }

  /** `save_if_current`: the cache file is named by the snapshot itself. */
  function Saved(s: Store, peer: PeerId, epoch: U64, snapshot: Snapshot): Store {
    if EpochOf(s, peer) == epoch then s.(cache := s.cache[snapshot.peer := snapshot]) else s
  }

  /** `remove` up to the file: the epoch moves on unless it is at its maximum. */
  function Bumped(s: Store, peer: PeerId): Store {
    if EpochOf(s, peer) == U64_MAX then s.(epochs := s.epochs[peer := U64_MAX])
    else s.(epochs := s.epochs[peer := EpochOf(s, peer) + 1])
  }

  function Removed(s: Store, peer: PeerId): Store {
    var bumped := Bumped(s, peer);
    bumped.(cache := bumped.cache - {peer})
  }

  class DeviceServiceSnapshots {
    var store: Store
    /** How many uses of the cache files have failed. */
    ghost var failures: nat

    constructor (cache: map<PeerId, Snapshot>)
      ensures store == Store(map[], cache)
    {
      store := Store(map[], cache);
      failures := 0;
    }

    /** A cache file that cannot be read is an error. */
    method Get(peer: PeerId) returns (r: Result<Option<Snapshot>>)
      ensures r.Ok? ==> r.value == if peer in store.cache then Some(store.cache[peer]) else None
    {
      var readable := *;
      if peer !in store.cache {
        r := Ok(None);
      } else if readable {
        r := Ok(Some(store.cache[peer]));
      } else {
        r := Err;
      }
    }

    method Epoch(peer: PeerId) returns (epoch: U64)
      ensures epoch == EpochOf(store, peer)
    {
      epoch := if peer in store.epochs then store.epochs[peer] else 0;
    }

    /** Ok(true) when the snapshot was stored; an error stores nothing. */
    method SaveIfCurrent(peer: PeerId, expected: U64, snapshot: Snapshot) returns (r: Result<bool>)
      modifies this
      ensures r == Ok(false) <==> EpochOf(old(store), peer) != expected
      ensures store == if r == Ok(true) then Saved(old(store), peer, expected, snapshot) else old(store)
      ensures store.epochs == old(store).epochs
      ensures store.cache == if r == Ok(true) then old(store).cache[snapshot.peer := snapshot] else old(store).cache
      ensures failures == old(failures) + (if r.Err? then 1 else 0)
    {
      var epoch := Epoch(peer);
      if epoch != expected {
        return Ok(false);
      }
      var written := *;
      if !written {
        failures := failures + 1;
        return Err;
      }
      store := store.(cache := store.cache[snapshot.peer := snapshot]);
      r := Ok(true);
    }

    /** Ok tells whether a snapshot was there. An error may come before or after the epoch has moved. */
    method Remove(peer: PeerId) returns (r: Result<bool>)
      modifies this
      ensures r.Ok? ==> r.value == (peer in old(store).cache) && EpochOf(old(store), peer) < U64_MAX && store == Removed(old(store), peer)
      ensures r.Err? ==> store == Bumped(old(store), peer)
      ensures r.Ok? ==>
                store.cache == old(store).cache - {peer} && store.epochs == old(store).epochs[peer := EpochOf(old(store), peer) + 1]
      ensures failures == old(failures) + (if r.Err? && EpochOf(old(store), peer) < U64_MAX then 1 else 0)
    {
      var epoch := Epoch(peer);
      store := store.(epochs := store.epochs[peer := epoch]);
      if epoch == U64_MAX {
        return Err;
      }
      store := store.(epochs := store.epochs[peer := epoch + 1]);
      if peer !in store.cache {
        assert store.cache - {peer} == store.cache;
        return Ok(false);
      }
      var removed := *;
      if !removed {
        failures := failures + 1;
        return Err;
      }
      store := store.(cache := store.cache - {peer});
      r := Ok(true);
    }
  }

  // ---------- refreshes, forgets and removals in any order ----------

  /** What a process is up to. `began` is when it captured the epoch, `from` when its data was asked for. */
  datatype Process =
    | Idle
    | Refreshing(peer: PeerId, epoch: U64, began: nat)
    | Forgetting(peer: PeerId, epoch: U64, began: nat, name: string)
    | Saving(peer: PeerId, epoch: U64, began: nat, snapshot: Snapshot, from: nat)

  type ProcessId = nat

  /** `clock` counts events; `askedAt` and `removedAt` record when what happened last. */
  datatype State = State(
    store: Store,
    processes: map<ProcessId, Process>,
    clock: nat,
    askedAt: map<PeerId, nat>,
    removedAt: map<PeerId, nat>)
  {
    function At(id: ProcessId): Process {
      if id in processes then processes[id] else Idle
    }

    function To(id: ProcessId, p: Process): State {
      this.(processes := processes[id := p])
    }
  }

  datatype Event =
    | BeginRefresh(id: ProcessId, peer: PeerId)
    | Observe(id: ProcessId, services: seq<Service>)
    | BeginForget(id: ProcessId, peer: PeerId, name: string)
    | Forget(id: ProcessId)
    | Save(id: ProcessId, written: bool)
    | GiveUp(id: ProcessId)
    | RemoveDevice(peer: PeerId, removed: bool)

  function Without(services: seq<Service>, name: string): seq<Service> {
    if services == [] then []
    else if services[0].name == name then Without(services[1..], name)
    else [services[0]] + Without(services[1..], name)
  }

  /** The read of `remove_cached_service`, and what it makes of the snapshot. */
  function Forgotten(s: State, p: Process): Process
    requires p.Forgetting?
  {
    if p.peer !in s.store.cache then Idle
    else
      var snapshot := s.store.cache[p.peer];
      var left := Without(snapshot.services, p.name);
      if |left| == |snapshot.services| then Idle
      else Saving(p.peer, p.epoch, p.began, snapshot.(services := left), if p.peer in s.askedAt then s.askedAt[p.peer] else 0)
  }

  function SaveStep(s: State, p: Process, written: bool): State
    requires p.Saving?
  {
    if written && EpochOf(s.store, p.peer) == p.epoch
    then s.(store := Saved(s.store, p.peer, p.epoch, p.snapshot), askedAt := s.askedAt[p.snapshot.peer := p.from])
    else s
  }

  function RemoveStep(s: State, peer: PeerId, removed: bool): State {
    if removed && EpochOf(s.store, peer) < U64_MAX
    then s.(store := Removed(s.store, peer), removedAt := s.removedAt[peer := s.clock])
    else s.(store := Bumped(s.store, peer))
  }

  /** One atomic step; an event that does not fit the process changes nothing but the clock. */
  function Step(s: State, e: Event): State {
    var t := match e
      case BeginRefresh(id, peer) =>
        if s.At(id).Idle? then s.To(id, Refreshing(peer, EpochOf(s.store, peer), s.clock)) else s
      case Observe(id, services) =>
        var p := s.At(id);
        if p.Refreshing? then s.To(id, Saving(p.peer, p.epoch, p.began, Snapshot(p.peer, services), p.began)) else s
      case BeginForget(id, peer, name) =>
        if s.At(id).Idle? then s.To(id, Forgetting(peer, EpochOf(s.store, peer), s.clock, name)) else s
      case Forget(id) =>
        if s.At(id).Forgetting? then s.To(id, Forgotten(s, s.At(id))) else s
      case Save(id, written) =>
        if s.At(id).Saving? then SaveStep(s, s.At(id), written).To(id, Idle) else s
      case GiveUp(id) => s.To(id, Idle)
      case RemoveDevice(peer, removed) => RemoveStep(s, peer, removed);
    t.(clock := s.clock + 1)
  }

  function Run(s: State, events: seq<Event>): State
    decreases |events|
  {
    if events == [] then s else Run(Step(s, events[0]), events[1..])
  }

  /** Any cache files whose snapshots are about the peer they are filed under, and nothing under way. */
  predicate Initial(s: State) {
    s.processes == map[] && s.clock == 1 && s.askedAt == map[] && s.removedAt == map[]
    && s.store.epochs == map[] && forall peer <- s.store.cache :: s.store.cache[peer].peer == peer
  }

  function RemovedAt(s: State, peer: PeerId): nat {
    if peer in s.removedAt then s.removedAt[peer] else 0
  }

  function AskedAt(s: State, peer: PeerId): nat {
    if peer in s.askedAt then s.askedAt[peer] else 0
  }

  // ---------- the invariant ----------

  /** What a process may still write is not older than the last removal, or its epoch is stale. */
  predicate Fenced(s: State, p: Process) {
    p.Idle?
    || (p.epoch <= EpochOf(s.store, p.peer) && p.began < s.clock
        && (p.epoch == EpochOf(s.store, p.peer) ==>
              RemovedAt(s, p.peer) <= p.began && (p.peer in s.removedAt ==> RemovedAt(s, p.peer) < p.began))
        && (p.Saving? ==>
              p.snapshot.peer == p.peer
              && (p.epoch == EpochOf(s.store, p.peer) && p.peer in s.removedAt ==> RemovedAt(s, p.peer) < p.from)))
  }

  ghost predicate Inv(s: State) {
    && (forall id <- s.processes :: Fenced(s, s.processes[id]))
    && (forall peer <- s.store.cache ::
          s.store.cache[peer].peer == peer && (peer in s.removedAt ==> RemovedAt(s, peer) < AskedAt(s, peer)))
    && (forall peer <- s.removedAt :: s.removedAt[peer] < s.clock)
    && s.clock > 0
  }

  lemma ProcessMoves(s: State, id: ProcessId, p: Process)
    requires Inv(s) && Fenced(s.(clock := s.clock + 1), p)
    ensures Inv(s.To(id, p).(clock := s.clock + 1))
  {
    var t := s.To(id, p).(clock := s.clock + 1);
    forall other <- t.processes ensures Fenced(t, t.processes[other]) {
      if other != id {
        assert Fenced(s, s.processes[other]);
      }
    }
  }

  lemma SaveKeepsInv(s: State, id: ProcessId, written: bool)
    requires Inv(s) && s.At(id).Saving?
    ensures Inv(Step(s, Save(id, written)))
  {
    var p := s.At(id);
    var t := Step(s, Save(id, written));
    assert Fenced(s, p);
    forall other <- t.processes ensures Fenced(t, t.processes[other]) {
      if other != id {
        assert Fenced(s, s.processes[other]);
      }
    }
  }

  lemma RemoveKeepsInv(s: State, peer: PeerId, removed: bool)
    requires Inv(s)
    ensures Inv(Step(s, RemoveDevice(peer, removed)))
  {
    var t := Step(s, RemoveDevice(peer, removed));
    forall id <- t.processes ensures Fenced(t, t.processes[id]) {
      assert Fenced(s, s.processes[id]);
    }
  }

  lemma BeginKeepsInv(s: State, id: ProcessId, p: Process)
    requires Inv(s) && (p.Refreshing? || p.Forgetting?) && p.epoch == EpochOf(s.store, p.peer) && p.began == s.clock
    ensures Inv(s.To(id, p).(clock := s.clock + 1))
  {
    ProcessMoves(s, id, p);
  }

  /** What is seen, or left of what was cached, is filed under the peer it is about, and is as old as the epoch or newer. */
  lemma SeenKeepsInv(s: State, id: ProcessId, services: seq<Service>)
    requires Inv(s) && s.At(id).Refreshing?
    ensures var p := s.At(id);
            Inv(s.To(id, Saving(p.peer, p.epoch, p.began, Snapshot(p.peer, services), p.began)).(clock := s.clock + 1))
  {
    var p := s.At(id);
    assert Fenced(s, p);
    ProcessMoves(s, id, Saving(p.peer, p.epoch, p.began, Snapshot(p.peer, services), p.began));
  }

  lemma ForgetKeepsInv(s: State, id: ProcessId)
    requires Inv(s) && s.At(id).Forgetting?
    ensures Inv(s.To(id, Forgotten(s, s.At(id))).(clock := s.clock + 1))
  {
    hide Without;
    assert Fenced(s, s.At(id));
    ProcessMoves(s, id, Forgotten(s, s.At(id)));
  }

  lemma StepKeepsInv(s: State, e: Event)
    requires Inv(s)
    ensures Inv(Step(s, e))
  {
    hide Inv, Fenced, Forgotten;
    ClockKeepsInv(s);
    match e
    case BeginRefresh(id, peer) =>
      if s.At(id).Idle? {
        BeginKeepsInv(s, id, Refreshing(peer, EpochOf(s.store, peer), s.clock));
      }
    case Observe(id, services) =>
      if s.At(id).Refreshing? {
        SeenKeepsInv(s, id, services);
      }
    case BeginForget(id, peer, name) =>
      if s.At(id).Idle? {
        BeginKeepsInv(s, id, Forgetting(peer, EpochOf(s.store, peer), s.clock, name));
      }
    case Forget(id) =>
      if s.At(id).Forgetting? {
        ForgetKeepsInv(s, id);
      }
    case Save(id, written) =>
      if s.At(id).Saving? {
        SaveKeepsInv(s, id, written);
      }
    case GiveUp(id) => GivenUpKeepsInv(s, id);
    case RemoveDevice(peer, removed) => RemoveKeepsInv(s, peer, removed);
  }

  lemma GivenUpKeepsInv(s: State, id: ProcessId)
    requires Inv(s)
    ensures Inv(s.To(id, Idle).(clock := s.clock + 1))
  {
    ProcessMoves(s, id, Idle);
  }

  lemma ClockKeepsInv(s: State)
    requires Inv(s)
    ensures Inv(s.(clock := s.clock + 1))
  {
    forall id <- s.processes ensures Fenced(s.(clock := s.clock + 1), s.processes[id]) {
      assert Fenced(s, s.processes[id]);
    }
  }

  lemma {:induction false} RunKeepsInv(s: State, events: seq<Event>)
    requires Inv(s)
    ensures Inv(Run(s, events))
    decreases |events|
  {
    if events != [] {
      StepKeepsInv(s, events[0]);
      RunKeepsInv(Step(s, events[0]), events[1..]);
    }
  }

  // ---------- main results ----------

  /**
   * In every run: if a snapshot of a peer is cached after the peer was removed, its observation was
   * asked for after that removal. No forget brings a removed device back.
   */
  lemma NoResurrection(s: State, events: seq<Event>, peer: PeerId)
    requires Initial(s)
    ensures var t := Run(s, events);
            peer in t.store.cache && peer in t.removedAt ==> t.removedAt[peer] < AskedAt(t, peer)
  {
    RunKeepsInv(s, events);
  }

  /** In every run: a save whose epoch was captured before a removal that succeeded stores nothing. */
  lemma StaleSavesStoreNothing(s: State, events: seq<Event>, id: ProcessId, written: bool)
    requires Initial(s)
    ensures var t := Run(s, events);
            var p := t.At(id);
            p.Saving? && p.peer in t.removedAt && p.began < t.removedAt[p.peer] ==> Step(t, Save(id, written)).store == t.store
  {
    RunKeepsInv(s, events);
    var t := Run(s, events);
    if id in t.processes {
      assert Fenced(t, t.processes[id]);
    }
  }

  /** A removal that succeeds takes the snapshot out of the cache, moves the epoch on, and is nobody else's affair. */
  lemma RemovalTakesOut(s: State, peer: PeerId)
    requires EpochOf(s.store, peer) < U64_MAX
    ensures var t := Step(s, RemoveDevice(peer, true));
            && peer !in t.store.cache && peer in t.removedAt && t.removedAt[peer] == s.clock
            && peer in t.store.epochs && t.store.epochs[peer] == EpochOf(s.store, peer) + 1
            && (forall other :: other != peer ==>
                  (other in t.store.cache <==> other in s.store.cache) && EpochOf(t.store, other) == EpochOf(s.store, other))
            && forall other <- t.store.cache :: t.store.cache[other] == s.store.cache[other]
  {
  }

  /** Removals of other peers do not stand in the way: a save fails only when its own peer's epoch has moved. */
  lemma CurrentSavesStore(s: State, id: ProcessId)
    requires s.At(id).Saving? && EpochOf(s.store, s.At(id).peer) == s.At(id).epoch
    ensures var t := Step(s, Save(id, true));
            s.At(id).snapshot.peer in t.store.cache && t.store.cache[s.At(id).snapshot.peer] == s.At(id).snapshot
    ensures forall peer :: peer != s.At(id).peer ==> EpochOf(Removed(s.store, peer), s.At(id).peer) == s.At(id).epoch
  {
  }

  // ---------- what is cached ----------

  lemma ThreeSteps(s: State, a: Event, b: Event, c: Event)
    ensures Run(s, [a, b, c]) == Step(Step(Step(s, a), b), c)
  {
    hide Step;
    assert [a, b, c][1..] == [b, c] && [b, c][1..] == [c] && [c][1..] == [];
    assert Run(s, [a, b, c]) == Run(Step(s, a), [b, c]);
    assert Run(Step(s, a), [b, c]) == Run(Step(Step(s, a), b), [c]);
  }

  /** A refresh that nothing gets in the way of caches what it observed. */
  lemma RefreshCaches(s: State, id: ProcessId, peer: PeerId, services: seq<Service>)
    requires s.At(id).Idle?
    ensures var t := Run(s, [BeginRefresh(id, peer), Observe(id, services), Save(id, true)]);
            t.store == Store(s.store.epochs, s.store.cache[peer := Snapshot(peer, services)]) && t.At(id).Idle?
  {
    ThreeSteps(s, BeginRefresh(id, peer), Observe(id, services), Save(id, true));
  }

  /** Which services are left: those of other names, as they are and in order. */
  lemma {:induction false} WithoutKeeps(services: seq<Service>, name: string)
    ensures forall x :: multiset(Without(services, name))[x] == if x.name == name then 0 else multiset(services)[x]
    ensures (forall x <- services :: x.name != name) ==> Without(services, name) == services
    ensures |Without(services, name)| <= |services|
    ensures |Without(services, name)| == |services| ==> forall x <- services :: x.name != name
  {
    if services != [] {
      WithoutKeeps(services[1..], name);
      assert services == [services[0]] + services[1..];
      assert multiset(services) == multiset([services[0]]) + multiset(services[1..]);
      WithoutFirst(services, name);
      hide Without;
    }
  }

  lemma WithoutFirst(services: seq<Service>, name: string)
    requires services != []
    ensures Without(services, name) == (if services[0].name == name then [] else [services[0]]) + Without(services[1..], name)
  {
  }

  lemma {:induction false} WithoutAppends(before: seq<Service>, after: seq<Service>, name: string)
    ensures Without(before + after, name) == Without(before, name) + Without(after, name)
  {
    if before == [] {
      assert before + after == after;
    } else {
      hide Without;
      var kept := if before[0].name == name then [] else [before[0]];
      var rest := Without(before[1..], name);
      WithoutAppends(before[1..], after, name);
      assert (before + after)[0] == before[0] && (before + after)[1..] == before[1..] + after;
      WithoutFirst(before, name);
      WithoutFirst(before + after, name);
      assert (kept + rest) + Without(after, name) == kept + (rest + Without(after, name));
    }
  }

  /** A forget that nothing gets in the way of takes the services of that name out of the snapshot, and nothing else. */
  lemma ForgetTakesOut(s: State, id: ProcessId, peer: PeerId, name: string)
    requires s.At(id).Idle? && Inv(s)
    ensures var t := Run(s, [BeginForget(id, peer, name), Forget(id), Save(id, true)]);
            && t.store.epochs == s.store.epochs && t.store.cache.Keys == s.store.cache.Keys && t.At(id).Idle?
            && (forall other <- s.store.cache :: other != peer ==> t.store.cache[other] == s.store.cache[other])
            && (peer in s.store.cache ==>
                  t.store.cache[peer].peer == peer
                  && forall x :: multiset(t.store.cache[peer].services)[x] ==
                       if x.name == name then 0 else multiset(s.store.cache[peer].services)[x])
  {
    ThreeSteps(s, BeginForget(id, peer, name), Forget(id), Save(id, true));
    if peer in s.store.cache {
      WithoutKeeps(s.store.cache[peer].services, name);
    }
  }

  /** The service was in the peer's snapshot at first, or a refresh of the peer has observed it. */
  ghost predicate Known(s: State, events: seq<Event>, peer: PeerId, x: Service) {
    (peer in s.store.cache && x in s.store.cache[peer].services)
    || exists k :: 0 <= k < |events| && ObservesAt(s, events, k, peer, x)
  }

  predicate ObservesAt(s: State, events: seq<Event>, k: nat, peer: PeerId, x: Service)
    requires k < |events|
  {
    events[k].Observe? && x in events[k].services
    && var p := Run(s, events[..k]).At(events[k].id); p.Refreshing? && p.peer == peer
  }

  ghost predicate OnlyKnown(s: State, events: seq<Event>, t: State) {
    (forall peer <- t.store.cache, x <- t.store.cache[peer].services :: Known(s, events, peer, x))
    && forall id <- t.processes :: OnlyKnownIn(s, events, t.processes[id])
  }

  ghost predicate OnlyKnownIn(s: State, events: seq<Event>, p: Process) {
    p.Saving? ==> p.snapshot.peer == p.peer && forall x <- p.snapshot.services :: Known(s, events, p.peer, x)
  }

  lemma KnownStays(s: State, events: seq<Event>, e: Event, peer: PeerId, x: Service)
    requires Known(s, events, peer, x)
    ensures Known(s, events + [e], peer, x)
  {
    if k :| 0 <= k < |events| && ObservesAt(s, events, k, peer, x) {
      assert (events + [e])[..k] == events[..k];
      assert ObservesAt(s, events + [e], k, peer, x);
    }
  }

  lemma {:induction false} RunOneMore(s: State, events: seq<Event>, e: Event)
    ensures Run(s, events + [e]) == Step(Run(s, events), e)
    decreases |events|
  {
    hide Step;
    if events == [] {
      assert events + [e] == [e] && [e][1..] == [];
    } else {
      RunOneMore(Step(s, events[0]), events[1..], e);
      assert (events + [e])[1..] == events[1..] + [e];
    }
  }

  /**
   * In every run, each service that is cached for a peer was in the peer's snapshot at first, or a refresh
   * of that very peer has observed it: neither a forget nor a save mixes peers or makes services up.
   */
  lemma {:induction false} CachedIsObserved(s: State, events: seq<Event>)
    requires Initial(s)
    ensures forall peer <- Run(s, events).store.cache, x <- Run(s, events).store.cache[peer].services :: Known(s, events, peer, x)
    ensures OnlyKnown(s, events, Run(s, events))
    decreases |events|
  {
    if events != [] {
      var before, e := events[..|events| - 1], events[|events| - 1];
      assert events == before + [e];
      CachedIsObserved(s, before);
      RunOneMore(s, before, e);
      RunKeepsInv(s, before);
      StepKnows(s, before, e);
    }
  }

  lemma StepKnows(s: State, before: seq<Event>, e: Event)
    requires OnlyKnown(s, before, Run(s, before)) && Inv(Run(s, before))
    ensures OnlyKnown(s, before + [e], Step(Run(s, before), e))
  {
    hide Known, Run;
    var t, events := Run(s, before), before + [e];
    forall peer, x | Known(s, before, peer, x) ensures Known(s, events, peer, x) {
      KnownStays(s, before, e, peer, x);
    }
    if e.Observe? && t.At(e.id).Refreshing? {
      forall x | x in e.services ensures Known(s, events, t.At(e.id).peer, x) {
        ObservedIsKnown(s, before, e, x);
      }
    }
    if e.Forget? && t.At(e.id).Forgetting? && t.At(e.id).peer in t.store.cache {
      var services := t.store.cache[t.At(e.id).peer].services;
      WithoutIsPart(services, t.At(e.id).name);
    }
  }

  lemma ObservedIsKnown(s: State, before: seq<Event>, e: Event, x: Service)
    requires e.Observe? && x in e.services && Run(s, before).At(e.id).Refreshing?
    ensures Known(s, before + [e], Run(s, before).At(e.id).peer, x)
  {
    assert (before + [e])[..|before|] == before;
    assert ObservesAt(s, before + [e], |before|, Run(s, before).At(e.id).peer, x);
  }

  lemma {:induction false} WithoutIsPart(services: seq<Service>, name: string)
    ensures forall x <- Without(services, name) :: x in services
  {
    if services != [] {
      WithoutIsPart(services[1..], name);
    }
  }

  // ---------- the merged observation ----------

  datatype Instance = Instance(name: string, runtime: string, status: string)

  /** The last of the first `n` services called `name`. */
  function LastPublished(published: seq<Service>, n: nat, name: string): Option<Service>
    requires n <= |published|
  {
    if n == 0 then None
    else if published[n - 1].name == name then Some(published[n - 1])
    else LastPublished(published, n - 1, name)
  }

  function FirstPublished(published: seq<Service>, n: nat, name: string): Option<Service>
    requires n <= |published|
  {
    if n == 0 then None
    else if FirstPublished(published, n - 1, name).Some? then FirstPublished(published, n - 1, name)
    else if published[n - 1].name == name then Some(published[n - 1])
    else None
  }

  function LastManaged(managed: seq<Instance>, n: nat, name: string): Option<Instance>
    requires n <= |managed|
  {
    if n == 0 then None
    else if managed[n - 1].name == name then Some(managed[n - 1])
    else LastManaged(managed, n - 1, name)
  }

  /** The service called `name`: managed data where there is any, and the published face where there is one. */
  function Merged(managed: seq<Instance>, published: seq<Service>, n: nat, name: string): Option<Service>
    requires n <= |published|
  {
    var face := LastPublished(published, n, name);
    match LastManaged(managed, |managed|, name)
    case Some(instance) =>
      Some(Service(name, instance.runtime, if face.Some? then face.value.metadata else "",
                   if face.Some? then face.value.endpoints else [], instance.status))
    case None =>
      if face.None? then None
      else
        var first := FirstPublished(published, n, name);
        if first.None? then None
        else Some(first.value.(metadata := face.value.metadata, endpoints := face.value.endpoints))
  }

  /** `merge_device_service_snapshot`, by name. */
  method MergeServices(managed: seq<Instance>, published: seq<Service>) returns (services: map<string, Service>)
    ensures forall name :: (name in services <==> Merged(managed, published, |published|, name).Some?)
                           && (name in services ==> Some(services[name]) == Merged(managed, published, |published|, name))
  {
    services := map[];
    for i := 0 to |managed|
      invariant forall name :: name in services <==> LastManaged(managed, i, name).Some?
      invariant forall name <- services ::
                  var instance := LastManaged(managed, i, name).value;
                  services[name] == Service(name, instance.runtime, "", [], instance.status)
    {
      services := services[managed[i].name := Service(managed[i].name, managed[i].runtime, "", [], managed[i].status)];
    }
    for i := 0 to |published|
      invariant forall name :: (name in services <==> Merged(managed, published, i, name).Some?)
                               && (name in services ==> Some(services[name]) == Merged(managed, published, i, name))
    {
      var p := published[i];
      FacesTogether(published, i, p.name);
      if p.name in services {
        services := services[p.name := services[p.name].(metadata := p.metadata, endpoints := p.endpoints)];
      } else {
        services := services[p.name := p];
      }
    }
  }

  lemma FacesTogether(published: seq<Service>, n: nat, name: string)
    requires n <= |published|
    ensures FirstPublished(published, n, name).Some? <==> LastPublished(published, n, name).Some?
    ensures FirstPublished(published, n, name).Some? ==> FirstPublished(published, n, name).value.name == name
  {
  }
}
