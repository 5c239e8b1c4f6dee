/** The connection handler that opens outbound streams one at a time: `handler.rs`. */
module StreamHandler {
  import opened Wrappers

  type Protocol = string

  /** A request to open a stream; `id` stands for its response channel. */
  datatype OpenRequest = OpenRequest(id: nat, protocol: Protocol)

  /** How the swarm answers a substream request. */
  datatype Answer =
    | Negotiated(stream: nat, protocol: Protocol)
    | Timeout
    | NegotiationFailed
    | IoError(error: string)

  datatype Response =
    | Opened(stream: nat)
    | UnsupportedProtocol(protocol: Protocol)
    | Io(error: string)

  function ResponseTo(request: OpenRequest, answer: Answer): Response {
    match answer
    case Negotiated(stream, _) => Opened(stream)
    case Timeout => Io("timed out")
    case NegotiationFailed => UnsupportedProtocol(request.protocol)
    case IoError(error) => Io(error)
  }

  /** Which response an answer deserves: the stream, or why there is none. */
  predicate Fits(request: OpenRequest, answer: Answer, response: Response) {
    match response
    case Opened(stream) => answer.Negotiated? && answer.stream == stream
    case UnsupportedProtocol(protocol) => answer.NegotiationFailed? && protocol == request.protocol
    case Io(error) => (answer.Timeout? && error == "timed out") || (answer.IoError? && answer.error == error)
  }

  lemma ResponseFits(request: OpenRequest, answer: Answer, response: Response)
    ensures Fits(request, answer, response) <==> response == ResponseTo(request, answer)
  {
  }

  /** The channel into the handler, the request it has taken, and the responses it has sent. */
  datatype State = State(inbox: seq<OpenRequest>, pending: Option<OpenRequest>, sent: seq<(OpenRequest, Response)>)

  function Polled(s: State): State {
    if s.pending.Some? || s.inbox == [] then s else s.(inbox := s.inbox[1..], pending := Some(s.inbox[0]))
  }

  function Answered(s: State, answer: Answer): State {
    if s.pending.None? then s
    else s.(pending := None, sent := s.sent + [(s.pending.value, ResponseTo(s.pending.value, answer))])
  }

  class Handler {
    var receiver: seq<OpenRequest>
    var pendingUpgrade: Option<OpenRequest>
    var sent: seq<(OpenRequest, Response)>

    function Value(): State
      reads this
    {
      State(receiver, pendingUpgrade, sent)
    }

    constructor (receiver: seq<OpenRequest>)
      ensures Value() == State(receiver, None, [])
    {
      this.receiver, pendingUpgrade, sent := receiver, None, [];
    }

    /** The protocol to ask the swarm for, if a request was taken. */
    method Poll() returns (substream: Option<Protocol>)
      modifies this
      ensures Value() == Polled(old(Value()))
      ensures substream.Some? <==> Value() != old(Value())
      ensures if old(pendingUpgrade).None? && old(receiver) != []
              then substream == Some(old(receiver)[0].protocol) && pendingUpgrade == Some(old(receiver)[0]) && receiver == old(receiver)[1..]
              else substream.None? && pendingUpgrade == old(pendingUpgrade) && receiver == old(receiver)
      ensures sent == old(sent)
    {
      if pendingUpgrade.Some? || receiver == [] {
        return None;
      }
      var request := receiver[0];
      receiver := receiver[1..];
      pendingUpgrade := Some(request);
      substream := Some(request.protocol);
    }

    method OnConnectionEvent(answer: Answer)
      modifies this
      ensures Value() == Answered(old(Value()), answer)
      ensures pendingUpgrade.None? && receiver == old(receiver)
      ensures match old(pendingUpgrade)
              case None => sent == old(sent)
              case Some(request) =>
                |sent| == |old(sent)| + 1 && old(sent) <= sent && sent[|sent| - 1].0 == request && Fits(request, answer, sent[|sent| - 1].1)
    {
      if pendingUpgrade.None? {
        return;
      }
      var request := pendingUpgrade.value;
      pendingUpgrade := None;
      var response;
      match answer {
        case Negotiated(stream, _) => response := Opened(stream);
        case Timeout => response := Io("timed out");
        case NegotiationFailed => response := UnsupportedProtocol(request.protocol);
        case IoError(error) => response := Io(error);
      }
      sent := sent + [(request, response)];
    }
  }

  // ---------- runs ----------

  datatype Event = Arrive(request: OpenRequest) | Poll | Reply(answer: Answer)

  function Step(s: State, e: Event): State {
    match e
    case Arrive(request) => s.(inbox := s.inbox + [request])
    case Poll => Polled(s)
    case Reply(answer) => Answered(s, answer)
  }

  function Run(s: State, events: seq<Event>): State {
    if events == [] then s else Step(Run(s, events[..|events| - 1]), events[|events| - 1])
  }

  const START := State([], None, [])

  function Arrivals(events: seq<Event>): seq<OpenRequest> {
    if events == [] then []
    else
      var earlier := Arrivals(events[..|events| - 1]);
      var e := events[|events| - 1];
      if e.Arrive? then earlier + [e.request] else earlier
  }

  function Answers(events: seq<Event>): seq<Answer> {
    if events == [] then []
    else
      var earlier := Answers(events[..|events| - 1]);
      var e := events[|events| - 1];
      if e.Reply? then earlier + [e.answer] else earlier
  }

  /** How many substreams the handler has asked for. */
  function Asked(s: State, events: seq<Event>): nat {
    if events == [] then 0
    else
      var before := events[..|events| - 1];
      Asked(s, before) + if events[|events| - 1].Poll? && Polled(Run(s, before)) != Run(s, before) then 1 else 0
  }

  /** The swarm answers outstanding requests only: never more answers than questions. */
  predicate Disciplined(events: seq<Event>) {
    events == []
    || (Disciplined(events[..|events| - 1]) && |Answers(events)| <= Asked(START, events))
  }

  /** The responses, then the pending request, then the channel: together all arrivals, in order. */
  predicate Accounted(s: State, arrivals: seq<OpenRequest>, answers: seq<Answer>, asked: nat) {
    && |s.sent| == |answers|
    && asked == |s.sent| + (if s.pending.Some? then 1 else 0)
    && |arrivals| == asked + |s.inbox|
    && (forall i :: 0 <= i < |s.sent| ==> s.sent[i] == (arrivals[i], ResponseTo(arrivals[i], answers[i])))
    && (s.pending.Some? ==> s.pending.value == arrivals[|s.sent|])
    && s.inbox == arrivals[asked..]
  }

  /**
   * In every run with a disciplined swarm: at most one request is outstanding, requests are taken and
   * answered in the order of their arrival, and each one taken has had exactly one response, the one
   * its answer calls for, or is the pending one.
   */
  lemma {:induction false} ExactlyOneResponse(events: seq<Event>)
    requires Disciplined(events)
    ensures Accounted(Run(START, events), Arrivals(events), Answers(events), Asked(START, events))
    ensures var sent := Run(START, events).sent;
            |sent| == |Answers(events)| <= |Arrivals(events)|
            && forall i :: 0 <= i < |sent| ==> sent[i].0 == Arrivals(events)[i] && Fits(sent[i].0, Answers(events)[i], sent[i].1)
  {
    if events != [] {
      var before, e := events[..|events| - 1], events[|events| - 1];
      ExactlyOneResponse(before);
      var s := Run(START, before);
      StepAccounts(s, e, Arrivals(before), Answers(before), Asked(START, before));
      assert Run(START, events) == Step(s, e);
    }
  }

  lemma StepAccounts(s: State, e: Event, arrivals: seq<OpenRequest>, answers: seq<Answer>, asked: nat)
    requires Accounted(s, arrivals, answers, asked)
    requires e.Reply? ==> |answers| < asked
    ensures Accounted(Step(s, e), if e.Arrive? then arrivals + [e.request] else arrivals,
                      if e.Reply? then answers + [e.answer] else answers,
                      if e.Poll? && Polled(s) != s then asked + 1 else asked)
  {
    if e.Poll? && s.pending.None? && s.inbox != [] {
      assert Polled(s).pending != s.pending;
      assert s.inbox[1..] == arrivals[asked + 1..];
    }
  }

  /** Without a request outstanding an answer is dropped: nothing is sent twice. */
  lemma UnsolicitedAnswerIsDropped(s: State, a: Answer, b: Answer)
    ensures Answered(Answered(s, a), b) == Answered(s, a)
    ensures s.pending.None? <==> Answered(s, a) == s
  {
    if s.pending.Some? {
      assert Answered(s, a).pending != s.pending;
    }
  }
}
