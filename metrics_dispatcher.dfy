/**
 * The metrics dispatcher (MetricsDispatcher): fans metrics events out to the
 * registered poll, publication and topic-creation listeners. A request is passed to
 * every listener of its kind, in registration order, and each returns a completion
 * listener; those are collected into a snapshot at request time, and the composite
 * completion listener handed back forwards each outcome to every collected one.
 */
module MetricsDispatcher {
  import opened Wrappers
  import opened Config

  /** A registered listener, identified by number. */
  type ListenerId = nat
  /** A completion listener returned by a registered listener for one request, identified by number. */
  type CompletionId = nat
  /** An opaque value (the bytes of a topic's initial value or of a publication). */
  type Bytes = nat
  /** An opaque HTTP response or exception. */
  type Opaque = nat

  datatype Kind = Poll | TopicCreation | Publication

  /** The outcomes a completion listener hears of, by kind. */
  datatype Outcome =
    | PollResponse(response: Opaque)
    | PollFailure(exception: Opaque)
    | TopicCreated
    | TopicCreationFailed(reason: nat)
    | Published
    | PublicationFailed(reason: nat)

  function KindOf(o: Outcome): Kind {
    match o
    case PollResponse(_) => Poll
    case PollFailure(_) => Poll
    case TopicCreated => TopicCreation
    case TopicCreationFailed(_) => TopicCreation
    case Published => Publication
    case PublicationFailed(_) => Publication
  }

  /** The request a registered listener is told of; `value` is absent for the first topic-creation overload and for polls. */
  datatype Request = Request(kind: Kind, service: ServiceConfig, endpoint: EndpointConfig, value: Option<Bytes>)

  datatype Effect =
    | RequestNotified(listener: ListenerId, request: Request, completion: CompletionId)
    | OutcomeNotified(completion: CompletionId, outcome: Outcome)

  /** The composite completion listener: the snapshot of completion listeners collected at request time. */
  datatype Composite = Composite(kind: Kind, members: seq<CompletionId>)

  /** Telling `listeners` of `request` in order; the completion listeners they return are numbered from `first`. */
  function RequestEffects(listeners: seq<ListenerId>, request: Request, first: CompletionId): (r: seq<Effect>)
  {
    seq(|listeners|, i requires 0 <= i < |listeners| => RequestNotified(listeners[i], request, first + i))
  }

  /** Forwarding `outcome` to every member of a snapshot, in order. */
  function FanOut(members: seq<CompletionId>, outcome: Outcome): (r: seq<Effect>)
  {
    seq(|members|, i requires 0 <= i < |members| => OutcomeNotified(members[i], outcome))
  }

  /** The numbers `first`, `first + 1`, ..., `first + n - 1`. */
  function Consecutive(first: nat, n: nat): (r: seq<nat>)
  {
    seq(n, i requires 0 <= i < n => first + i)
  }

  class Dispatcher {
    var pollListeners: seq<ListenerId>
    var publicationListeners: seq<ListenerId>
    var topicCreationListeners: seq<ListenerId>
    var nextCompletion: CompletionId
    /** Every call made on a listener so far, in order. */
    var trace: seq<Effect>

    constructor ()
      ensures pollListeners == [] && publicationListeners == [] && topicCreationListeners == []
      ensures nextCompletion == 0 && trace == []
    {
      pollListeners := [];
      publicationListeners := [];
      topicCreationListeners := [];
      nextCompletion := 0;
      trace := [];
    }

    /** The listeners of one kind. */
    function ListenersOf(kind: Kind): seq<ListenerId>
      reads this
    {
      match kind
      case Poll => pollListeners
      case TopicCreation => topicCreationListeners
      case Publication => publicationListeners
    }

    method AddPollListener(listener: ListenerId)
      modifies this`pollListeners
      ensures pollListeners == old(pollListeners) + [listener]
    {
      pollListeners := pollListeners + [listener];
    }

    method AddPublicationListener(listener: ListenerId)
      modifies this`publicationListeners
      ensures publicationListeners == old(publicationListeners) + [listener]
    {
      publicationListeners := publicationListeners + [listener];
    }

    method AddTopicCreationListener(listener: ListenerId)
      modifies this`topicCreationListeners
      ensures topicCreationListeners == old(topicCreationListeners) + [listener]
    {
      topicCreationListeners := topicCreationListeners + [listener];
    }

    /** Tells every listener of the request's kind of it, in order, collecting the completion listeners. */
    method Dispatch(request: Request) returns (composite: Composite)
      modifies this`nextCompletion, this`trace
      ensures var n := |ListenersOf(request.kind)|;
        && composite == Composite(request.kind, Consecutive(old(nextCompletion), n))
        && nextCompletion == old(nextCompletion) + n
        && trace == old(trace) + RequestEffects(ListenersOf(request.kind), request, old(nextCompletion))
    {
      var listeners := ListenersOf(request.kind);
      var members := [];
      var first := nextCompletion;
      for i := 0 to |listeners|
        invariant nextCompletion == first + i
        invariant members == Consecutive(first, i)
        invariant trace == old(trace) + RequestEffects(listeners[..i], request, first)
      {
        var completion := nextCompletion;
        nextCompletion := nextCompletion + 1;
        trace := trace + [RequestNotified(listeners[i], request, completion)];
        members := members + [completion];
      }
      assert listeners[..|listeners|] == listeners;
      composite := Composite(request.kind, members);
    }

    /** `onPollRequest`. */
    method OnPollRequest(service: ServiceConfig, endpoint: EndpointConfig) returns (composite: Composite)
      modifies this`nextCompletion, this`trace
      ensures composite == Composite(Poll, Consecutive(old(nextCompletion), |pollListeners|))
      ensures nextCompletion == old(nextCompletion) + |pollListeners|
      ensures trace == old(trace) + RequestEffects(pollListeners, Request(Poll, service, endpoint, None), old(nextCompletion))
    {
      composite := Dispatch(Request(Poll, service, endpoint, None));
    }

    /** `onTopicCreationRequest`, both overloads: `value` is absent for the one without an initial value. */
    method OnTopicCreationRequest(service: ServiceConfig, endpoint: EndpointConfig, value: Option<Bytes>)
      returns (composite: Composite)
      modifies this`nextCompletion, this`trace
      ensures composite == Composite(TopicCreation, Consecutive(old(nextCompletion), |topicCreationListeners|))
      ensures nextCompletion == old(nextCompletion) + |topicCreationListeners|
      ensures trace == old(trace) +
        RequestEffects(topicCreationListeners, Request(TopicCreation, service, endpoint, value), old(nextCompletion))
    {
      composite := Dispatch(Request(TopicCreation, service, endpoint, value));
    }

    /** `onPublicationRequest`. */
    method OnPublicationRequest(service: ServiceConfig, endpoint: EndpointConfig, value: Bytes)
      returns (composite: Composite)
      modifies this`nextCompletion, this`trace
      ensures composite == Composite(Publication, Consecutive(old(nextCompletion), |publicationListeners|))
      ensures nextCompletion == old(nextCompletion) + |publicationListeners|
      ensures trace == old(trace) +
        RequestEffects(publicationListeners, Request(Publication, service, endpoint, Some(value)), old(nextCompletion))
    {
      composite := Dispatch(Request(Publication, service, endpoint, Some(value)));
    }

    /** An outcome reported to a composite completion listener: forwarded to every member of its snapshot. */
    method Complete(composite: Composite, outcome: Outcome)
      requires KindOf(outcome) == composite.kind
      modifies this`trace
      ensures trace == old(trace) + FanOut(composite.members, outcome)
    {
      for i := 0 to |composite.members|
        invariant trace == old(trace) + FanOut(composite.members[..i], outcome)
      {
        trace := trace + [OutcomeNotified(composite.members[i], outcome)];
      }
      assert composite.members[..|composite.members|] == composite.members;
    }
  }

  /**
   * A listener added after a request does not hear that request's outcome: the poll
   * outcome reaches the two completion listeners collected at request time and nothing
   * else, while a later request reaches all three listeners.
   */
  method SnapshotAtRequestTime(service: ServiceConfig, endpoint: EndpointConfig, response: Opaque)
    returns (notified: seq<CompletionId>, laterRequestReaches: nat)
    ensures notified == [0, 1]
    ensures laterRequestReaches == 3
  {
    var d := new Dispatcher();
    d.AddPollListener(10);
    d.AddPollListener(11);
    var composite := d.OnPollRequest(service, endpoint);
    d.AddPollListener(12);
    var before := |d.trace|;
    d.Complete(composite, PollResponse(response));
    var outcomes := d.trace[before..];
    notified := seq(|outcomes|, i requires 0 <= i < |outcomes| => outcomes[i].completion);
    assert notified == composite.members;
    var second := d.OnPollRequest(service, endpoint);
    laterRequestReaches := |second.members|;
  }
}
