/** Listeners and their bounded queues: `registry.rs`, and the upgrade in front of them: `upgrade.rs`. */
module StreamRegistry {
  import opened StreamPolicy
  import opened Wrappers

  type Protocol = string

  type ChannelId = nat

  /** `mpsc::channel(8)` holds eight messages and one more for its only sender. */
  const CHANNEL_CAPACITY := 9

  datatype IncomingStream = IncomingStream(id: nat, peer: Peer, protocol: Protocol)

  datatype Registration = Registration(allow: AllowList, channel: ChannelId)

  /** A channel lives on with its receiver when the registration is gone. */
  datatype Channel = Channel(protocol: Protocol, open: bool, queue: seq<IncomingStream>)

  datatype Tables = Tables(listeners: map<Protocol, Registration>, channels: map<ChannelId, Channel>, next: ChannelId) {
    predicate IsOpen(c: ChannelId) {
      c in channels && channels[c].open
    }

    /** `listeners.retain(|_, registration| !registration.sender.is_closed())`. */
    function Pruned(): Tables {
      this.(listeners := map p | p in listeners && IsOpen(listeners[p].channel) :: listeners[p])
    }

    function Registered(p: Protocol, allow: AllowList): Option<Tables> {
      if p in Pruned().listeners then None
      else Some(Tables(Pruned().listeners[p := Registration(allow, next)], channels[next := Channel(p, true, [])], next + 1))
    }

    function Unregistered(p: Protocol): Tables {
      this.(listeners := listeners - {p})
    }

    /** Where an accepted stream goes; `None` when it is dropped. */
    function Target(s: IncomingStream): Option<ChannelId> {
      if s.protocol in listeners && IsOpen(listeners[s.protocol].channel)
         && |channels[listeners[s.protocol].channel].queue| < CHANNEL_CAPACITY
      then Some(listeners[s.protocol].channel)
      else None
    }

    /** `on_inbound_stream`: a listener found disconnected is removed. */
    function Delivered(s: IncomingStream): Tables {
      match Target(s)
      case Some(c) => this.(channels := channels[c := channels[c].(queue := channels[c].queue + [s])])
      case None =>
        if s.protocol in listeners && !IsOpen(listeners[s.protocol].channel) then Unregistered(s.protocol)
        else this
    }
  }

  datatype Upgrade = Exposed(stream: IncomingStream) | UnsupportedProtocol | Unauthorized(reason: Decision)

  /** The protocol has a listener that has not gone away. */
  predicate Listens(listeners: map<Protocol, Registration>, channels: map<ChannelId, Channel>, p: Protocol) {
    p in listeners && listeners[p].channel in channels && channels[listeners[p].channel].open
  }

  class Registry {
    const globalAllowPolicy: GlobalPolicy
    var listeners: map<Protocol, Registration>
    var channels: map<ChannelId, Channel>
    var next: ChannelId

    function Value(): Tables
      reads this
    {
      Tables(listeners, channels, next)
    }

    constructor (policy: GlobalPolicy)
      ensures Value() == Tables(map[], map[], 0) && globalAllowPolicy == policy
    {
      globalAllowPolicy := policy;
      listeners, channels, next := map[], map[], 0;
    }

    method RegisterListener(p: Protocol, allow: AllowList) returns (r: Result<ChannelId>)
      modifies this
      ensures match old(Value()).Registered(p, allow)
              case None => r.Err? && Value() == old(Value()).Pruned()
              case Some(t) => r == Ok(old(next)) && Value() == t
      ensures r.Err? <==> Listens(old(listeners), old(channels), p)
      ensures r.Ok? ==> p in listeners && listeners[p] == Registration(allow, r.value)
                        && r.value == old(next) && next == old(next) + 1 && channels == old(channels)[old(next) := Channel(p, true, [])]
      ensures r.Err? ==> next == old(next) && channels == old(channels)
      ensures forall q :: q != p || r.Err? ==> (q in listeners <==> Listens(old(listeners), old(channels), q))
      ensures forall q <- listeners :: q != p || r.Err? ==> listeners[q] == old(listeners)[q]
    {
      listeners := Value().Pruned().listeners;
      if p in listeners {
        return Err;
      }
      channels := channels[next := Channel(p, true, [])];
      listeners := listeners[p := Registration(allow, next)];
      next := next + 1;
      r := Ok(next - 1);
    }

    method UnregisterListener(p: Protocol) returns (found: bool)
      modifies this
      ensures found == (p in old(listeners)) && Value() == old(Value()).Unregistered(p)
      ensures p !in listeners && forall q :: q != p ==> (q in listeners <==> q in old(listeners))
      ensures forall q <- listeners :: listeners[q] == old(listeners)[q]
    {
      found := p in listeners;
      listeners := listeners - {p};
    }

    method SupportedInboundProtocols() returns (protocols: set<Protocol>)
      modifies this
      ensures Value() == old(Value()).Pruned()
      ensures protocols == old(Value()).Pruned().listeners.Keys
      ensures forall q :: q in protocols <==> Listens(old(listeners), old(channels), q)
    {
      listeners := Value().Pruned().listeners;
      protocols := listeners.Keys;
    }

    method ProtocolAllowList(p: Protocol) returns (allow: Option<AllowList>)
      modifies this
      ensures Value() == old(Value()).Pruned()
      ensures allow == if p in listeners then Some(listeners[p].allow) else None
      ensures allow.Some? <==> Listens(old(listeners), old(channels), p)
      ensures allow.Some? ==> allow.value == old(listeners)[p].allow
    {
      listeners := Value().Pruned().listeners;
      allow := if p in listeners then Some(listeners[p].allow) else None;
    }

    /** `upgrade_inbound`: `first` and `second` are the shared lists when each check reads them. */
    method UpgradeInbound(s: IncomingStream, first: Lists, second: Lists) returns (u: Upgrade)
      modifies this
      ensures Value() == old(Value()).Pruned()
      ensures u.UnsupportedProtocol? <==> s.protocol !in listeners
      ensures u.Exposed? <==> s.protocol in listeners && PassesGlobal(globalAllowPolicy, first, s.peer)
                              && PassesProtocol(listeners[s.protocol].allow, second, s.peer)
      ensures u.Exposed? ==> u.stream == s
      ensures u == Unauthorized(RejectedByGlobalAllowList) <==> s.protocol in listeners && !PassesGlobal(globalAllowPolicy, first, s.peer)
      ensures u.Unauthorized? ==> !u.reason.Allowed?
      ensures u.Exposed? <==> Listens(old(listeners), old(channels), s.protocol)
                              && MayOpen(globalAllowPolicy, old(listeners)[s.protocol].allow, first, second, s.peer)
    {
      var allow := ProtocolAllowList(s.protocol);
      if allow.None? {
        return UnsupportedProtocol;
      }
      var decision := AuthorizeInbound(globalAllowPolicy, allow.value, first, second, s.peer);
      u := if decision.Allowed? then Exposed(s) else Unauthorized(decision);
    }

    /** Whether the stream was queued; a full or missing listener drops it. */
    method OnInboundStream(s: IncomingStream) returns (queued: bool)
      modifies this
      ensures queued == old(Value()).Target(s).Some? && Value() == old(Value()).Delivered(s)
      ensures queued <==> Listens(old(listeners), old(channels), s.protocol)
                          && |old(channels)[old(listeners)[s.protocol].channel].queue| < 9
      ensures queued ==>
                var c := old(listeners)[s.protocol].channel;
                listeners == old(listeners) && channels == old(channels)[c := old(channels)[c].(queue := old(channels)[c].queue + [s])]
      ensures !queued ==> channels == old(channels)
      ensures forall q :: q in listeners <==> q in old(listeners) && (q == s.protocol ==> Listens(old(listeners), old(channels), q))
      ensures forall q <- listeners :: listeners[q] == old(listeners)[q]
      ensures next == old(next)
    {
      if s.protocol !in listeners {
        return false;
      }
      var c := listeners[s.protocol].channel;
      if c !in channels || !channels[c].open {
        listeners := listeners - {s.protocol};
        return false;
      }
      if |channels[c].queue| >= CHANNEL_CAPACITY {
        return false;
      }
      channels := channels[c := channels[c].(queue := channels[c].queue + [s])];
      queued := true;
    }
  }

  // ---------- upgrades, listeners and consumers in any order ----------

  /** Where a stream is; `reg` is the registration it was looked up under. */
  datatype Status =
    | Found(stream: IncomingStream, reg: Registration)
    | PassedGlobal(stream: IncomingStream, reg: Registration)
    | Accepted(stream: IncomingStream, reg: Registration)
    | Rejected(stream: IncomingStream)
    | Queued(stream: IncomingStream, reg: Registration, channel: ChannelId)
    | Dropped(stream: IncomingStream, reg: Registration)
    | Consumed(stream: IncomingStream, reg: Registration, channel: ChannelId)
    | Discarded(stream: IncomingStream, reg: Registration, channel: ChannelId)

  datatype State = State(policy: GlobalPolicy, lists: Lists, tables: Tables, status: map<nat, Status>)

  datatype Event =
    | Listen(protocol: Protocol, allow: AllowList)
    | Unlisten(protocol: Protocol)
    | Advertise
    | SetList(list: ListId, peers: set<Peer>)
    | Begin(stream: IncomingStream)
    | CheckGlobal(id: nat)
    | CheckProtocol(id: nat)
    | Arrive(id: nat)
    | Receive(channel: ChannelId)
    | DropReceiver(channel: ChannelId)

  function BeginStep(s: State, stream: IncomingStream): State {
    if stream.id in s.status then s
    else
      var tables := s.tables.Pruned();
      s.(tables := tables, status := s.status[stream.id :=
        if stream.protocol in tables.listeners then Found(stream, tables.listeners[stream.protocol]) else Rejected(stream)])
  }

  function CheckStep(s: State, id: nat, global: bool): State {
    if id !in s.status then s
    else
      match s.status[id]
      case Found(stream, reg) =>
        if !global then s
        else if PassesGlobal(s.policy, s.lists, stream.peer) then s.(status := s.status[id := PassedGlobal(stream, reg)])
        else s.(status := s.status[id := Rejected(stream)])
      case PassedGlobal(stream, reg) =>
        if global then s
        else if PassesProtocol(reg.allow, s.lists, stream.peer) then s.(status := s.status[id := Accepted(stream, reg)])
        else s.(status := s.status[id := Rejected(stream)])
      case _ => s
  }

  function ArriveStep(s: State, id: nat): State {
    if id !in s.status || !s.status[id].Accepted? then s
    else
      var stream, reg := s.status[id].stream, s.status[id].reg;
      s.(tables := s.tables.Delivered(stream),
         status := s.status[id := match s.tables.Target(stream)
                                  case Some(c) => Queued(stream, reg, c)
                                  case None => Dropped(stream, reg)])
  }

  function ReceiveStep(s: State, c: ChannelId): State {
    if !s.tables.IsOpen(c) || s.tables.channels[c].queue == [] then s
    else
      var queue := s.tables.channels[c].queue;
      var id := queue[0].id;
      s.(tables := s.tables.(channels := s.tables.channels[c := s.tables.channels[c].(queue := queue[1..])]),
         status := if id in s.status && s.status[id].Queued?
                   then s.status[id := Consumed(s.status[id].stream, s.status[id].reg, c)] else s.status)
  }

  function DropReceiverStep(s: State, c: ChannelId): State {
    if !s.tables.IsOpen(c) then s
    else
      s.(tables := s.tables.(channels := s.tables.channels[c := s.tables.channels[c].(open := false, queue := [])]),
         status := map id | id in s.status ::
           if s.status[id].Queued? && s.status[id].channel == c then Discarded(s.status[id].stream, s.status[id].reg, c) else s.status[id])
  }

  function Step(s: State, e: Event): State {
    match e
    case Listen(p, allow) =>
      s.(tables := if s.tables.Registered(p, allow).Some? then s.tables.Registered(p, allow).value else s.tables.Pruned())
    case Unlisten(p) => s.(tables := s.tables.Unregistered(p))
    case Advertise => s.(tables := s.tables.Pruned())
    case SetList(list, peers) => s.(lists := s.lists[list := peers])
    case Begin(stream) => BeginStep(s, stream)
    case CheckGlobal(id) => CheckStep(s, id, true)
    case CheckProtocol(id) => CheckStep(s, id, false)
    case Arrive(id) => ArriveStep(s, id)
    case Receive(c) => ReceiveStep(s, c)
    case DropReceiver(c) => DropReceiverStep(s, c)
  }

  function Run(s: State, events: seq<Event>): State {
    if events == [] then s else Step(Run(s, events[..|events| - 1]), events[|events| - 1])
  }

  predicate Initial(s: State) {
    s.tables == Tables(map[], map[], 0) && s.status == map[]
  }

  // ---------- the queues and the statuses agree ----------

  predicate ListenersFit(t: Tables) {
    (forall c <- t.channels :: c < t.next)
    && (forall p <- t.listeners :: t.listeners[p].channel in t.channels && t.channels[t.listeners[p].channel].protocol == p)
  }

  /** What is in the queue of channel `c`: streams of its protocol, each once, and marked as queued there. */
  predicate QueueFits(s: State, c: ChannelId)
    requires c in s.tables.channels
  {
    var queue := s.tables.channels[c].queue;
    && |queue| <= CHANNEL_CAPACITY
    && (!s.tables.channels[c].open ==> queue == [])
    && (forall i, j :: 0 <= i < j < |queue| ==> queue[i].id != queue[j].id)
    && (forall stream <- queue ::
          stream.protocol == s.tables.channels[c].protocol && stream.id in s.status
          && s.status[stream.id].Queued? && s.status[stream.id].stream == stream && s.status[stream.id].channel == c)
  }

  predicate StatusFits(s: State, id: nat)
    requires id in s.status
  {
    s.status[id].stream.id == id
    && (s.status[id].Queued? ==> s.status[id].channel in s.tables.channels
                                 && s.status[id].stream in s.tables.channels[s.status[id].channel].queue)
  }

  ghost predicate Inv(s: State) {
    ListenersFit(s.tables) && (forall c <- s.tables.channels :: QueueFits(s, c)) && (forall id <- s.status :: StatusFits(s, id))
  }

  lemma ListenKeepsInv(s: State, p: Protocol, allow: AllowList)
    requires Inv(s)
    ensures Inv(Step(s, Listen(p, allow)))
  {
    var t := Step(s, Listen(p, allow));
    forall c <- t.tables.channels ensures QueueFits(t, c) {
      assert c in s.tables.channels ==> QueueFits(s, c);
    }
    forall id <- t.status ensures StatusFits(t, id) {
      assert StatusFits(s, id);
    }
  }

  /** Only the status of one stream that is in no queue changes. */
  lemma StatusMoves(s: State, t: State, id: nat)
    requires Inv(s) && t.tables.channels == s.tables.channels && t.tables.next == s.tables.next && ListenersFit(t.tables)
    requires id in t.status && t.status == s.status[id := t.status[id]] && t.status[id].stream.id == id && !t.status[id].Queued?
    requires id in s.status ==> !s.status[id].Queued?
    ensures Inv(t)
  {
    forall c <- t.tables.channels ensures QueueFits(t, c) {
      assert QueueFits(s, c);
    }
    forall other <- t.status ensures StatusFits(t, other) {
      assert other != id ==> StatusFits(s, other);
    }
  }

  lemma BeginKeepsInv(s: State, stream: IncomingStream)
    requires Inv(s)
    ensures Inv(Step(s, Begin(stream)))
  {
    if stream.id !in s.status {
      StatusMoves(s, Step(s, Begin(stream)), stream.id);
    }
  }

  lemma CheckKeepsInv(s: State, id: nat, global: bool)
    requires Inv(s)
    ensures Inv(CheckStep(s, id, global))
  {
    if CheckStep(s, id, global) != s {
      assert StatusFits(s, id);
      StatusMoves(s, CheckStep(s, id, global), id);
    }
  }

  lemma ArriveKeepsInv(s: State, id: nat)
    requires Inv(s)
    ensures Inv(Step(s, Arrive(id)))
  {
    if id in s.status && s.status[id].Accepted? {
      var t, stream := Step(s, Arrive(id)), s.status[id].stream;
      assert StatusFits(s, id);
      if s.tables.Target(stream).None? {
        StatusMoves(s, t, id);
      } else {
        forall d <- t.tables.channels ensures QueueFits(t, d) {
          ArrivedQueueFits(s, id, d);
        }
        forall other <- t.status ensures StatusFits(t, other) {
          ArrivedStatusFits(s, id, other);
        }
      }
    }
  }

  lemma ArrivedQueueFits(s: State, id: nat, d: ChannelId)
    requires Inv(s) && id in s.status && s.status[id].Accepted? && s.tables.Target(s.status[id].stream).Some?
    requires d in s.tables.channels
    ensures QueueFits(Step(s, Arrive(id)), d)
  {
    assert QueueFits(s, d) && StatusFits(s, id);
  }

  lemma ArrivedStatusFits(s: State, id: nat, other: nat)
    requires Inv(s) && id in s.status && s.status[id].Accepted? && s.tables.Target(s.status[id].stream).Some?
    requires other in s.status
    ensures StatusFits(Step(s, Arrive(id)), other)
  {
    var c := s.tables.Target(s.status[id].stream).value;
    assert StatusFits(s, other);
    if other == id {
      var queue := Step(s, Arrive(id)).tables.channels[c].queue;
      assert queue[|s.tables.channels[c].queue|] == s.status[id].stream;
    }
  }

  lemma ReceiveKeepsInv(s: State, c: ChannelId)
    requires Inv(s)
    ensures Inv(Step(s, Receive(c)))
  {
    if s.tables.IsOpen(c) && s.tables.channels[c].queue != [] {
      var t := Step(s, Receive(c));
      forall d <- t.tables.channels ensures QueueFits(t, d) {
        ReceivedQueueFits(s, c, d);
      }
      forall other <- t.status ensures StatusFits(t, other) {
        ReceivedStatusFits(s, c, other);
      }
    }
  }

  lemma ReceivedQueueFits(s: State, c: ChannelId, d: ChannelId)
    requires Inv(s) && s.tables.IsOpen(c) && s.tables.channels[c].queue != [] && d in s.tables.channels
    ensures QueueFits(Step(s, Receive(c)), d)
  {
    var queue := s.tables.channels[c].queue;
    assert QueueFits(s, c) && QueueFits(s, d);
    assert queue[0] in queue;
  }

  lemma ReceivedStatusFits(s: State, c: ChannelId, other: nat)
    requires Inv(s) && s.tables.IsOpen(c) && s.tables.channels[c].queue != [] && other in s.status
    ensures StatusFits(Step(s, Receive(c)), other)
  {
    var queue := s.tables.channels[c].queue;
    assert QueueFits(s, c) && StatusFits(s, other);
    assert queue[0] in queue && queue == [queue[0]] + queue[1..];
  }

  lemma DropReceiverKeepsInv(s: State, c: ChannelId)
    requires Inv(s)
    ensures Inv(Step(s, DropReceiver(c)))
  {
    if s.tables.IsOpen(c) {
      var t := Step(s, DropReceiver(c));
      forall d <- t.tables.channels ensures QueueFits(t, d) {
        assert QueueFits(s, d);
      }
      forall id <- t.status ensures StatusFits(t, id) {
        assert StatusFits(s, id);
      }
    }
  }

  lemma StepKeepsInv(s: State, e: Event)
    requires Inv(s)
    ensures Inv(Step(s, e))
  {
    match e
    case Listen(p, allow) => ListenKeepsInv(s, p, allow);
    case Begin(stream) => BeginKeepsInv(s, stream);
    case CheckGlobal(id) => CheckKeepsInv(s, id, true);
    case CheckProtocol(id) => CheckKeepsInv(s, id, false);
    case Arrive(id) => ArriveKeepsInv(s, id);
    case Receive(c) => ReceiveKeepsInv(s, c);
    case DropReceiver(c) => DropReceiverKeepsInv(s, c);
    case _ =>
      forall c <- s.tables.channels ensures QueueFits(Step(s, e), c) { assert QueueFits(s, c); }
      forall id <- s.status ensures StatusFits(Step(s, e), id) { assert StatusFits(s, id); }
  }

  /**
   * In every run the queues hold exactly the streams marked as queued, each in one queue, of its own
   * protocol and within the capacity. So an accepted stream is on its way, queued, dropped, consumed or
   * discarded with its receiver, and only one of these.
   */
  lemma {:induction false} EveryRunFits(s: State, events: seq<Event>)
    requires Initial(s)
    ensures Inv(Run(s, events))
  {
    if events != [] {
      EveryRunFits(s, events[..|events| - 1]);
      StepKeepsInv(Run(s, events[..|events| - 1]), events[|events| - 1]);
    }
  }

  // ---------- the way of a stream into a queue ----------

  /** The state before event `k`. */
  function Before(s: State, events: seq<Event>, k: nat): State
    requires k <= |events|
  {
    Run(s, events[..k])
  }

  /** Event `k` looks the stream up and finds `reg`. */
  predicate BeginsAt(s: State, events: seq<Event>, k: nat, stream: IncomingStream, reg: Registration) {
    k < |events| && events[k] == Begin(stream) && stream.id !in Before(s, events, k).status
    && var listeners := Before(s, events, k).tables.Pruned().listeners; stream.protocol in listeners && listeners[stream.protocol] == reg
  }

  predicate StandsAt(s: State, events: seq<Event>, k: nat, status: Status) {
    k <= |events| && status.stream.id in Before(s, events, k).status && Before(s, events, k).status[status.stream.id] == status
  }

  /** Event `k` is the node-wide check of the stream just found, and passes. */
  predicate PassesGlobalAt(s: State, events: seq<Event>, k: nat, stream: IncomingStream, reg: Registration) {
    k < |events| && events[k] == CheckGlobal(stream.id) && StandsAt(s, events, k, Found(stream, reg))
    && PassesGlobal(Before(s, events, k).policy, Before(s, events, k).lists, stream.peer)
  }

  /** Event `k` is the check of the listener that was found, and passes. */
  predicate PassesProtocolAt(s: State, events: seq<Event>, k: nat, stream: IncomingStream, reg: Registration) {
    k < |events| && events[k] == CheckProtocol(stream.id) && StandsAt(s, events, k, PassedGlobal(stream, reg))
    && PassesProtocol(reg.allow, Before(s, events, k).lists, stream.peer)
  }

  /** Event `k` puts the accepted stream into the queue of channel `c`. */
  predicate ArrivesAt(s: State, events: seq<Event>, k: nat, stream: IncomingStream, reg: Registration, c: ChannelId) {
    k < |events| && events[k] == Arrive(stream.id) && StandsAt(s, events, k, Accepted(stream, reg))
    && Before(s, events, k).tables.Target(stream) == Some(c)
  }

  /** Found at `k1`, then past the node-wide check at `k2`, then past the check of the listener at `k3`. */
  predicate Authorizes(s: State, events: seq<Event>, stream: IncomingStream, reg: Registration, k1: nat, k2: nat, k3: nat) {
    k1 < k2 < k3 && BeginsAt(s, events, k1, stream, reg) && PassesGlobalAt(s, events, k2, stream, reg)
    && PassesProtocolAt(s, events, k3, stream, reg)
  }

  predicate LetsIn(s: State, events: seq<Event>, stream: IncomingStream, reg: Registration, k1: nat, k2: nat) {
    k1 < k2 && BeginsAt(s, events, k1, stream, reg) && PassesGlobalAt(s, events, k2, stream, reg)
  }

  predicate Queues(s: State, events: seq<Event>, stream: IncomingStream, reg: Registration, c: ChannelId, k1: nat, k2: nat, k3: nat, k4: nat) {
    Authorizes(s, events, stream, reg, k1, k2, k3) && k3 < k4 && ArrivesAt(s, events, k4, stream, reg, c)
  }

  ghost predicate WasFound(s: State, events: seq<Event>, stream: IncomingStream, reg: Registration) {
    exists k1: nat :: BeginsAt(s, events, k1, stream, reg)
  }

  ghost predicate WasLetIn(s: State, events: seq<Event>, stream: IncomingStream, reg: Registration) {
    exists k1: nat, k2: nat :: LetsIn(s, events, stream, reg, k1, k2)
  }

  ghost predicate WasAuthorized(s: State, events: seq<Event>, stream: IncomingStream, reg: Registration) {
    exists k1: nat, k2: nat, k3: nat :: Authorizes(s, events, stream, reg, k1, k2, k3)
  }

  ghost predicate WasQueued(s: State, events: seq<Event>, stream: IncomingStream, reg: Registration, c: ChannelId) {
    exists k1: nat, k2: nat, k3: nat, k4: nat :: Queues(s, events, stream, reg, c, k1, k2, k3, k4)
  }

  /** What a status says about the past of its stream. */
  ghost predicate Explained(s: State, events: seq<Event>, status: Status) {
    match status
    case Found(stream, reg) => WasFound(s, events, stream, reg)
    case PassedGlobal(stream, reg) => WasLetIn(s, events, stream, reg)
    case Accepted(stream, reg) => WasAuthorized(s, events, stream, reg)
    case Dropped(stream, reg) => WasAuthorized(s, events, stream, reg)
    case Rejected(_) => true
    case Queued(stream, reg, c) => WasQueued(s, events, stream, reg, c)
    case Consumed(stream, reg, c) => WasQueued(s, events, stream, reg, c)
    case Discarded(stream, reg, c) => WasQueued(s, events, stream, reg, c)
  }

  lemma EarlierStates(s: State, events: seq<Event>, k: nat)
    requires events != [] && k < |events|
    ensures Before(s, events[..|events| - 1], k) == Before(s, events, k)
  {
    assert events[..|events| - 1][..k] == events[..k];
  }

  lemma BeginStays(s: State, events: seq<Event>, k: nat, stream: IncomingStream, reg: Registration)
    requires events != [] && BeginsAt(s, events[..|events| - 1], k, stream, reg)
    ensures BeginsAt(s, events, k, stream, reg)
  {
    EarlierStates(s, events, k);
  }

  lemma GlobalStays(s: State, events: seq<Event>, k: nat, stream: IncomingStream, reg: Registration)
    requires events != [] && PassesGlobalAt(s, events[..|events| - 1], k, stream, reg)
    ensures PassesGlobalAt(s, events, k, stream, reg)
  {
    EarlierStates(s, events, k);
  }

  lemma ProtocolStays(s: State, events: seq<Event>, k: nat, stream: IncomingStream, reg: Registration)
    requires events != [] && PassesProtocolAt(s, events[..|events| - 1], k, stream, reg)
    ensures PassesProtocolAt(s, events, k, stream, reg)
  {
    EarlierStates(s, events, k);
  }

  lemma ArrivalStays(s: State, events: seq<Event>, k: nat, stream: IncomingStream, reg: Registration, c: ChannelId)
    requires events != [] && ArrivesAt(s, events[..|events| - 1], k, stream, reg, c)
    ensures ArrivesAt(s, events, k, stream, reg, c)
  {
    EarlierStates(s, events, k);
  }

  lemma FoundGrows(s: State, events: seq<Event>, stream: IncomingStream, reg: Registration) returns (k1: nat)
    requires events != [] && WasFound(s, events[..|events| - 1], stream, reg)
    ensures k1 < |events| - 1 && BeginsAt(s, events, k1, stream, reg)
  {
    k1 :| BeginsAt(s, events[..|events| - 1], k1, stream, reg);
    BeginStays(s, events, k1, stream, reg);
  }

  lemma LetInGrows(s: State, events: seq<Event>, stream: IncomingStream, reg: Registration) returns (k1: nat, k2: nat)
    requires events != [] && WasLetIn(s, events[..|events| - 1], stream, reg)
    ensures k2 < |events| - 1 && LetsIn(s, events, stream, reg, k1, k2)
  {
    k1, k2 :| LetsIn(s, events[..|events| - 1], stream, reg, k1, k2);
    BeginStays(s, events, k1, stream, reg);
    GlobalStays(s, events, k2, stream, reg);
  }

  lemma AuthorizedGrows(s: State, events: seq<Event>, stream: IncomingStream, reg: Registration) returns (k1: nat, k2: nat, k3: nat)
    requires events != [] && WasAuthorized(s, events[..|events| - 1], stream, reg)
    ensures k3 < |events| - 1 && Authorizes(s, events, stream, reg, k1, k2, k3)
  {
    k1, k2, k3 :| Authorizes(s, events[..|events| - 1], stream, reg, k1, k2, k3);
    BeginStays(s, events, k1, stream, reg);
    GlobalStays(s, events, k2, stream, reg);
    ProtocolStays(s, events, k3, stream, reg);
  }

  lemma QueuedGrows(s: State, events: seq<Event>, stream: IncomingStream, reg: Registration, c: ChannelId)
    requires events != [] && WasQueued(s, events[..|events| - 1], stream, reg, c)
    ensures WasQueued(s, events, stream, reg, c)
  {
    var k1: nat, k2: nat, k3: nat, k4: nat :| Queues(s, events[..|events| - 1], stream, reg, c, k1, k2, k3, k4);
    BeginStays(s, events, k1, stream, reg);
    GlobalStays(s, events, k2, stream, reg);
    ProtocolStays(s, events, k3, stream, reg);
    ArrivalStays(s, events, k4, stream, reg, c);
    assert Queues(s, events, stream, reg, c, k1, k2, k3, k4);
  }

  lemma ExplanationGrows(s: State, events: seq<Event>, status: Status)
    requires events != [] && Explained(s, events[..|events| - 1], status)
    ensures Explained(s, events, status)
  {
    match status
    case Found(stream, reg) => var k1 := FoundGrows(s, events, stream, reg);
    case PassedGlobal(stream, reg) => var k1, k2 := LetInGrows(s, events, stream, reg);
    case Accepted(stream, reg) => var k1, k2, k3 := AuthorizedGrows(s, events, stream, reg);
    case Dropped(stream, reg) => var k1, k2, k3 := AuthorizedGrows(s, events, stream, reg);
    case Rejected(_) =>
    case Queued(stream, reg, c) => QueuedGrows(s, events, stream, reg, c);
    case Consumed(stream, reg, c) => QueuedGrows(s, events, stream, reg, c);
    case Discarded(stream, reg, c) => QueuedGrows(s, events, stream, reg, c);
  }

  /** The ways in which one event changes the status of a stream. */
  predicate Moves(s: State, e: Event, was: Status, status: Status) {
    || status == was
    || status.Rejected?
    || (e == CheckGlobal(was.stream.id) && was.Found? && status == PassedGlobal(was.stream, was.reg)
        && PassesGlobal(s.policy, s.lists, was.stream.peer))
    || (e == CheckProtocol(was.stream.id) && was.PassedGlobal? && status == Accepted(was.stream, was.reg)
        && PassesProtocol(was.reg.allow, s.lists, was.stream.peer))
    || (e == Arrive(was.stream.id) && was.Accepted? && status == Dropped(was.stream, was.reg))
    || (e == Arrive(was.stream.id) && was.Accepted? && s.tables.Target(was.stream).Some?
        && status == Queued(was.stream, was.reg, s.tables.Target(was.stream).value))
    || (was.Queued? && status in {Consumed(was.stream, was.reg, was.channel), Discarded(was.stream, was.reg, was.channel)})
  }

  lemma StatusMovesSo(s: State, e: Event, id: nat)
    requires Inv(s) && id in s.status
    ensures id in Step(s, e).status && Moves(s, e, s.status[id], Step(s, e).status[id])
  {
    assert StatusFits(s, id);
    if e.Receive? && s.tables.IsOpen(e.channel) && s.tables.channels[e.channel].queue != [] {
      assert QueueFits(s, e.channel);
      assert s.tables.channels[e.channel].queue[0] in s.tables.channels[e.channel].queue;
    }
  }

  /** What the last event has made of a status is explained by it and by what came before. */
  lemma MoveExplained(s: State, events: seq<Event>, was: Status, status: Status)
    requires events != [] && StandsAt(s, events, |events| - 1, was) && Explained(s, events[..|events| - 1], was)
    requires Moves(Before(s, events, |events| - 1), events[|events| - 1], was, status)
    ensures Explained(s, events, status)
  {
    var k := |events| - 1;
    ExplanationGrows(s, events, was);
    if status != was && !status.Rejected? {
      var stream, reg := was.stream, was.reg;
      if was.Found? {
        var k1 := FoundGrows(s, events, stream, reg);
        assert LetsIn(s, events, stream, reg, k1, k);
      } else if was.PassedGlobal? {
        var k1, k2 := LetInGrows(s, events, stream, reg);
        assert Authorizes(s, events, stream, reg, k1, k2, k);
      } else if was.Accepted? {
        var k1, k2, k3 := AuthorizedGrows(s, events, stream, reg);
        assert status.Queued? ==> Queues(s, events, stream, reg, status.channel, k1, k2, k3, k);
      }
    }
  }

  lemma BeginExplained(s: State, events: seq<Event>, stream: IncomingStream)
    requires events != [] && events[|events| - 1] == Begin(stream) && stream.id !in Before(s, events, |events| - 1).status
    ensures stream.id in Run(s, events).status && Explained(s, events, Run(s, events).status[stream.id])
  {
    var k := |events| - 1;
    var status := Run(s, events).status[stream.id];
    if status.Found? {
      assert BeginsAt(s, events, k, stream, status.reg);
    }
  }

  /**
   * In every run: what has become of a stream is explained by events in this order: it found a listener
   * of its protocol, passed the node-wide check, passed the check of that listener, and was queued.
   */
  lemma {:induction false} EveryStreamIsExplained(s: State, events: seq<Event>, id: nat)
    requires Initial(s)
    ensures id in Run(s, events).status ==> Explained(s, events, Run(s, events).status[id])
  {
    if events != [] && id in Run(s, events).status {
      var before, e := events[..|events| - 1], events[|events| - 1];
      var t := Run(s, before);
      EveryRunFits(s, before);
      assert Run(s, events) == Step(t, e);
      if id !in t.status {
        BeginExplained(s, events, e.stream);
      } else {
        EveryStreamIsExplained(s, before, id);
        assert StatusFits(t, id);
        StatusMovesSo(t, e, id);
        MoveExplained(s, events, t.status[id], Run(s, events).status[id]);
      }
    }
  }

  lemma QueuedStreamsWereAuthorized(s: State, events: seq<Event>, c: ChannelId, stream: IncomingStream)
    requires Initial(s)
    ensures var t := Run(s, events);
            c in t.tables.channels && stream in t.tables.channels[c].queue ==>
              stream.protocol == t.tables.channels[c].protocol && exists reg :: WasQueued(s, events, stream, reg, c)
  {
    EveryRunFits(s, events);
    EveryStreamIsExplained(s, events, stream.id);
    var t := Run(s, events);
    if c in t.tables.channels && stream in t.tables.channels[c].queue {
      assert QueueFits(t, c);
      assert WasQueued(s, events, stream, t.status[stream.id].reg, c);
    }
  }

  // ---------- delivery ----------

  /** A dropped stream leaves every queue alone; a queued one goes to the end of its listener's queue. */
  lemma DropsDisturbNothing(s: State, id: nat)
    requires id in s.status && s.status[id].Accepted?
    ensures var t, stream := Step(s, Arrive(id)), s.status[id].stream;
            match s.tables.Target(stream)
            case None => t.tables.channels == s.tables.channels && t.status[id].Dropped?
            case Some(c) =>
              t.status[id].Queued? && t.tables.channels[c].queue == s.tables.channels[c].queue + [stream]
              && forall d <- s.tables.channels :: d != c ==> t.tables.channels[d] == s.tables.channels[d]
  {
  }

  /** A listener receives what is at the head of its queue, and no other queue changes. */
  lemma ReceivesInOrder(s: State, c: ChannelId)
    requires Inv(s) && c in s.tables.channels && s.tables.channels[c].queue != []
    ensures var t, queue := Step(s, Receive(c)), s.tables.channels[c].queue;
            && [queue[0]] + t.tables.channels[c].queue == queue && t.status[queue[0].id].Consumed?
            && (forall d <- s.tables.channels :: d != c ==> t.tables.channels[d] == s.tables.channels[d])
            && t.tables.listeners == s.tables.listeners
  {
    assert QueueFits(s, c);
  }

  // ---------- listeners that go away ----------

  /** A listener that has gone away never comes back: its channel stays closed in every run. */
  lemma {:induction false} ClosedForGood(s: State, events: seq<Event>, k: nat, c: ChannelId)
    requires k < |events| && events[k] == DropReceiver(c) && c < Before(s, events, k).tables.next
    ensures c < Run(s, events).tables.next && !Run(s, events).tables.IsOpen(c)
    ensures forall p, allow :: p in Run(s, events).tables.listeners && Run(s, events).tables.listeners[p].channel == c ==>
              Run(s, events).tables.Registered(p, allow).Some?
    decreases |events|
  {
    var m := |events| - 1;
    assert events[..m + 1] == events;
    OneMore(s, events, m);
    if k < m {
      assert events[..m][..k] == events[..k];
      ClosedForGood(s, events[..m], k, c);
    }
    ClosedStays(Before(s, events, m), events[m], c);
  }

  lemma ClosedStays(t: State, e: Event, c: ChannelId)
    requires c < t.tables.next && (!t.tables.IsOpen(c) || e == DropReceiver(c))
    ensures c < Step(t, e).tables.next && !Step(t, e).tables.IsOpen(c)
  {
  }

  // ---------- which listener gets it ----------

  /** Event `k` registers a listener for the protocol. */
  predicate ListensAt(s: State, events: seq<Event>, k: nat, p: Protocol) {
    k < |events| && Registers(Before(s, events, k), events[k], p)
  }

  ghost predicate Relistened(s: State, events: seq<Event>, from: nat, to: nat, p: Protocol) {
    exists k: nat :: from < k < to && ListensAt(s, events, k, p)
  }

  lemma ListenerMoves(t: State, e: Event, p: Protocol)
    requires p in Step(t, e).tables.listeners
    ensures if Registers(t, e, p) then Step(t, e).tables.listeners[p].channel == t.tables.next
            else p in t.tables.listeners && Step(t, e).tables.listeners[p] == t.tables.listeners[p]
  {
  }

  lemma NextGrows(t: State, e: Event)
    ensures t.tables.next <= Step(t, e).tables.next
  {
  }

  lemma OneMore(s: State, events: seq<Event>, m: nat)
    requires m < |events|
    ensures Before(s, events, m + 1) == Step(Before(s, events, m), events[m])
  {
    assert events[..m + 1][..m] == events[..m];
  }

  /** The protocol has the listener `reg` or none; or, after a new registration, a newer one or none. */
  predicate StillListens(t: Tables, p: Protocol, reg: Registration, relistened: bool) {
    reg.channel < t.next
    && (p in t.listeners ==> if relistened then reg.channel < t.listeners[p].channel else t.listeners[p] == reg)
  }

  predicate Registers(t: State, e: Event, p: Protocol) {
    e.Listen? && e.protocol == p && t.tables.Registered(p, e.allow).Some?
  }

  lemma StillListensAfter(t: State, e: Event, p: Protocol, reg: Registration, relistened: bool)
    requires StillListens(t.tables, p, reg, relistened)
    ensures StillListens(Step(t, e).tables, p, reg, relistened || Registers(t, e, p))
  {
    NextGrows(t, e);
    if p in Step(t, e).tables.listeners {
      ListenerMoves(t, e, p);
    }
  }

  lemma {:induction false} ListenerSince(s: State, events: seq<Event>, from: nat, m: nat, stream: IncomingStream, reg: Registration)
    requires Initial(s) && BeginsAt(s, events, from, stream, reg) && from < m <= |events|
    ensures StillListens(Before(s, events, m).tables, stream.protocol, reg, Relistened(s, events, from, m, stream.protocol))
    decreases m
  {
    OneMore(s, events, m - 1);
    if m == from + 1 {
      EveryRunFits(s, events[..from]);
      assert Before(s, events, m).tables == Before(s, events, from).tables.Pruned();
    } else {
      ListenerSince(s, events, from, m - 1, stream, reg);
      RelistenedGrows(s, events, from, m, stream.protocol);
      StillListensAfter(Before(s, events, m - 1), events[m - 1], stream.protocol, reg, Relistened(s, events, from, m - 1, stream.protocol));
    }
  }

  lemma RelistenedGrows(s: State, events: seq<Event>, from: nat, m: nat, p: Protocol)
    requires from + 1 < m <= |events|
    ensures Relistened(s, events, from, m, p) <==> Relistened(s, events, from, m - 1, p) || ListensAt(s, events, m - 1, p)
  {
  }

  lemma {:induction false} StatusPersists(s: State, events: seq<Event>, i: nat, j: nat, id: nat)
    requires Initial(s) && i <= j <= |events| && id in Before(s, events, i).status
    ensures id in Before(s, events, j).status
    decreases j
  {
    hide Step, Inv;
    if i < j {
      StatusPersists(s, events, i, j - 1, id);
      OneMore(s, events, j - 1);
      EveryRunFits(s, events[..j - 1]);
      StatusMovesSo(Before(s, events, j - 1), events[j - 1], id);
    }
  }

  /**
   * In every run a stream is queued with the listener that authorized it exactly when no listener was
   * registered for its protocol between its upgrade and its arrival: `on_inbound_stream` looks the
   * listener up again and checks nothing more.
   */
  lemma QueuedWithItsListener(s: State, events: seq<Event>, begin: nat, arrival: nat, stream: IncomingStream, reg: Registration, c: ChannelId)
    requires Initial(s) && BeginsAt(s, events, begin, stream, reg) && ArrivesAt(s, events, arrival, stream, reg, c)
    ensures begin < arrival
    ensures c == reg.channel <==> !Relistened(s, events, begin, arrival, stream.protocol)
  {
    if arrival <= begin {
      StatusPersists(s, events, arrival, begin, stream.id);
    }
    ListenerSince(s, events, begin, arrival, stream, reg);
  }

  /**
   * If the listener is replaced while an accepted stream is on its way, the stream
   * ends up in the queue of the new one, whatever peers that one lets in.
   */
  lemma ReplacedListenerGetsTheStream(s: State, id: nat, allow: AllowList)
    requires Inv(s) && id in s.status && s.status[id].Accepted?
    ensures var stream := s.status[id].stream;
            var t := Step(Step(Step(s, Unlisten(stream.protocol)), Listen(stream.protocol, allow)), Arrive(id));
            && stream.protocol in t.tables.listeners && t.tables.listeners[stream.protocol] == Registration(allow, s.tables.next)
            && s.tables.next in t.tables.channels && t.tables.channels[s.tables.next].queue == [stream]
            && id in t.status && t.status[id] == Queued(stream, s.status[id].reg, s.tables.next)
  {
    var p := s.status[id].stream.protocol;
    var gone := Step(s, Unlisten(p));
    assert p !in gone.tables.Pruned().listeners;
    var again := Step(gone, Listen(p, allow));
    assert again.tables.listeners[p] == Registration(allow, s.tables.next);
    assert again.tables.channels[s.tables.next] == Channel(p, true, []);
    assert again.tables.Target(s.status[id].stream) == Some(s.tables.next);
  }

  /** A listener is registered and the stream passes both checks. */
  function Accepting(stream: IncomingStream, allow: AllowList): seq<Event> {
    [Listen(stream.protocol, allow), Begin(stream), CheckGlobal(stream.id), CheckProtocol(stream.id)]
  }

  function Replacing(stream: IncomingStream, allow: AllowList): seq<Event> {
    [Unlisten(stream.protocol), Listen(stream.protocol, allow), Arrive(stream.id)]
  }

  lemma RunOneMore(s: State, events: seq<Event>, e: Event)
    ensures Run(s, events + [e]) == Step(Run(s, events), e)
  {
    assert (events + [e])[..|events|] == events;
  }

  lemma RunOfFour(s: State, a: Event, b: Event, c: Event, d: Event)
    ensures Run(s, [a, b, c, d]) == Step(Step(Step(Step(s, a), b), c), d)
  {
    hide Step, Run;
    RunOfNone(s);
    assert [] + [a] == [a];
    RunOneMore(s, [], a);
    assert [a] + [b] == [a, b];
    RunOneMore(s, [a], b);
    assert [a, b] + [c] == [a, b, c];
    RunOneMore(s, [a, b], c);
    assert [a, b, c] + [d] == [a, b, c, d];
    RunOneMore(s, [a, b, c], d);
  }

  lemma RunOfNone(s: State)
    ensures Run(s, []) == s
  {
  }

  /** The tables with the one listener. */
  function OneListener(p: Protocol, allow: AllowList): (t: Tables)
    ensures t.Pruned() == t
  {
    Tables(map[p := Registration(allow, 0)], map[0 := Channel(p, true, [])], 1)
  }

  lemma ListenFirst(s: State, p: Protocol, allow: AllowList)
    requires Initial(s)
    ensures Step(s, Listen(p, allow)) == s.(tables := OneListener(p, allow))
  {
    assert s.tables.Pruned().listeners == map[];
  }

  lemma AcceptedAfter(s: State, stream: IncomingStream, allow: AllowList)
    requires Initial(s) && PassesGlobal(s.policy, s.lists, stream.peer) && PassesProtocol(allow, s.lists, stream.peer)
    ensures Run(s, Accepting(stream, allow)) ==
              s.(tables := OneListener(stream.protocol, allow), status := map[stream.id := Accepted(stream, Registration(allow, 0))])
  {
    hide PassesGlobal, PassesProtocol;
    var id, reg := stream.id, Registration(allow, 0);
    RunOfFour(s, Listen(stream.protocol, allow), Begin(stream), CheckGlobal(id), CheckProtocol(id));
    ListenFirst(s, stream.protocol, allow);
    var listening := s.(tables := OneListener(stream.protocol, allow));
    var found := listening.(status := map[id := Found(stream, reg)]);
    assert BeginStep(listening, stream) == found;
    assert CheckStep(found, id, true) == found.(status := map[id := PassedGlobal(stream, reg)]);
  }

  /**
   * A run from the beginning: `first` lets the peer in, the listener is replaced by one with `second`,
   * and the stream is queued with it. `second` may be a list the peer is not on.
   */
  lemma ReplacedInARun(s: State, stream: IncomingStream, first: AllowList, second: AllowList)
    requires Initial(s) && PassesGlobal(s.policy, s.lists, stream.peer) && PassesProtocol(first, s.lists, stream.peer)
    ensures var t := Run(s, Accepting(stream, first) + Replacing(stream, second));
            && t.status == map[stream.id := Queued(stream, Registration(first, 0), 1)]
            && stream.protocol in t.tables.listeners && t.tables.listeners[stream.protocol] == Registration(second, 1)
            && 1 in t.tables.channels && t.tables.channels[1].queue == [stream]
  {
    var before, after := Accepting(stream, first), Replacing(stream, second);
    hide Run;
    var accepted := Run(s, before);
    AcceptedAfter(s, stream, first);
    EveryRunFits(s, before);
    ReplacedListenerGetsTheStream(accepted, stream.id, second);
    RunOneMore(s, before, after[0]);
    RunOneMore(s, before + [after[0]], after[1]);
    RunOneMore(s, before + [after[0]] + [after[1]], after[2]);
    assert before + [after[0]] + [after[1]] + [after[2]] == before + after;
  }
}
