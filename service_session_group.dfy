/**
 * The group of service sessions of one model (ServiceSessionGroupImpl). `start`
 * walks the model's services in order: for each it creates a polling session,
 * registers the service with topic management, adds it to the publishing client with
 * three callbacks bound to that service, and keeps the session. `close` stops every
 * kept session, then removes every configured service from the publishing client.
 * The list of kept sessions is never cleared.
 */
module ServiceSessionGroup {
  import opened Wrappers
  import opened Config

  /** A service session made by the session factory, identified by number. */
  type SessionId = nat

  datatype Effect =
    | SessionCreated(session: SessionId, service: ServiceConfig)
    | TopicServiceAdded(service: ServiceConfig)
    | PublisherServiceAdded(service: ServiceConfig)
    | SessionStopped(session: SessionId)
    | PublisherServiceRemoved(service: ServiceConfig)
    | ListenerStandby(service: ServiceConfig)
    | ReadyForPublishing(session: SessionId, service: ServiceConfig)
    | ListenerActive(service: ServiceConfig)
    | ListenerRemoved(service: ServiceConfig)

  /** The publishing client's registration of one service: its callbacks are bound to `service` and `session`. */
  datatype Registration = Registration(service: ServiceConfig, session: SessionId)

  /** The events of a service's update source the callbacks are registered for. */
  datatype SourceEvent = Standby | Active | Close

  /** One iteration of `start`'s loop, for the service `service` given session `session`. */
  function ServiceStart(service: ServiceConfig, session: SessionId): seq<Effect> {
    [SessionCreated(session, service), TopicServiceAdded(service), PublisherServiceAdded(service)]
  }

  /** The effects of `start` over `services`, the sessions numbered from `first`. */
  function StartEffects(services: seq<ServiceConfig>, first: SessionId): (r: seq<Effect>)
    ensures |r| == 3 * |services|
    decreases |services|
  {
    if services == [] then []
    else StartEffects(services[..|services| - 1], first) + ServiceStart(services[|services| - 1], first + |services| - 1)
  }

  /**
   * `start` creates one session per service, in order and numbered consecutively, and
   * registers each service with topic management just before adding it to the
   * publishing client.
   */
  lemma {:induction false} StartEffectsInOrder(services: seq<ServiceConfig>, first: SessionId)
    ensures forall i :: 0 <= i < |services| ==>
      && StartEffects(services, first)[3 * i] == SessionCreated(first + i, services[i])
      && StartEffects(services, first)[3 * i + 1] == TopicServiceAdded(services[i])
      && StartEffects(services, first)[3 * i + 2] == PublisherServiceAdded(services[i])
    decreases |services|
  {
    if services != [] {
      var n := |services| - 1;
      var prefix := services[..n];
      StartEffectsInOrder(prefix, first);
      forall i | 0 <= i < n
        ensures services[i] == prefix[i]
      {
      }
    }
  }

  /** The registrations `start` makes, numbered from `first`. */
  function Registrations(services: seq<ServiceConfig>, first: SessionId): (r: seq<Registration>)
  {
    seq(|services|, i requires 0 <= i < |services| => Registration(services[i], first + i))
  }

  /** What a callback of `registration` does for an event of its update source. */
  function Relay(registration: Registration, event: SourceEvent): (r: seq<Effect>)
    ensures forall i :: 0 <= i < |r| ==> !r[i].SessionStopped? && r[i].service == registration.service
    ensures event == Active ==> r == [ReadyForPublishing(registration.session, registration.service), ListenerActive(registration.service)]
    ensures event != Active ==> |r| == 1
  {
    match event
    case Standby => [ListenerStandby(registration.service)]
    case Active => [ReadyForPublishing(registration.session, registration.service), ListenerActive(registration.service)]
    case Close => [ListenerRemoved(registration.service)]
  }

  function StopEffects(sessions: seq<SessionId>): (r: seq<Effect>)
  {
    seq(|sessions|, i requires 0 <= i < |sessions| => SessionStopped(sessions[i]))
  }

  function RemoveEffects(services: seq<ServiceConfig>): (r: seq<Effect>)
  {
    seq(|services|, i requires 0 <= i < |services| => PublisherServiceRemoved(services[i]))
  }

  class Group {
    const model: Model
    /** The kept sessions, in creation order. */
    var sessions: seq<SessionId>
    /** The services added to the publishing client, with the callbacks bound to each. */
    var registrations: seq<Registration>
    var nextSession: SessionId
    /** Every outside effect performed so far, in order. */
    var trace: seq<Effect>

    constructor (model: Model)
      ensures this.model == model
      ensures sessions == [] && registrations == [] && nextSession == 0 && trace == []
    {
      this.model := model;
      sessions := [];
      registrations := [];
      nextSession := 0;
      trace := [];
    }

    /** `start`: a null service list throws at once; otherwise one session per service, appended. */
    method Start() returns (threw: bool)
      modifies this`sessions, this`registrations, this`nextSession, this`trace
      ensures threw <==> model.services.None?
      ensures threw ==> sessions == old(sessions) && registrations == old(registrations) && trace == old(trace)
      ensures !threw ==>
        var services := model.services.value;
        && nextSession == old(nextSession) + |services|
        && sessions == old(sessions) + seq(|services|, i requires 0 <= i < |services| => old(nextSession) + i)
        && registrations == old(registrations) + Registrations(services, old(nextSession))
        && trace == old(trace) + StartEffects(services, old(nextSession))
    {
      if model.services.None? {
        return true;
      }
      threw := false;
      var services := model.services.value;
      var first := nextSession;
      for i := 0 to |services|
        invariant nextSession == first + i
        invariant sessions == old(sessions) + seq(i, j requires 0 <= j < i => first + j)
        invariant registrations == old(registrations) + Registrations(services[..i], first)
        invariant trace == old(trace) + StartEffects(services[..i], first)
      {
        var service := services[i];
        var session := nextSession;
        nextSession := nextSession + 1;
        trace := trace + [SessionCreated(session, service)];
        trace := trace + [TopicServiceAdded(service)];
        trace := trace + [PublisherServiceAdded(service)];
        registrations := registrations + [Registration(service, session)];
        sessions := sessions + [session];
        assert services[..i + 1][..i] == services[..i];
        assert Registrations(services[..i + 1], first) == Registrations(services[..i], first) + [Registration(service, session)];
      }
      assert services[..|services|] == services;
    }

    /** An event of the update source registered as `registrations[k]`. */
    method OnSourceEvent(k: nat, event: SourceEvent)
      requires k < |registrations|
      modifies this`trace
      ensures trace == old(trace) + Relay(registrations[k], event)
    {
      var registration := registrations[k];
      match event {
        case Standby =>
          trace := trace + [ListenerStandby(registration.service)];
        case Active =>
          trace := trace + [ReadyForPublishing(registration.session, registration.service)];
          trace := trace + [ListenerActive(registration.service)];
        case Close =>
          trace := trace + [ListenerRemoved(registration.service)];
      }
    }

    /**
     * `close`: stops every kept session, then removes every configured service; with
     * a null service list the removal throws after the sessions are stopped.
     */
    method Close() returns (threw: bool)
      modifies this`trace
      ensures threw <==> model.services.None?
      ensures threw ==> trace == old(trace) + StopEffects(sessions)
      ensures !threw ==> trace == old(trace) + StopEffects(sessions) + RemoveEffects(model.services.value)
    {
      for i := 0 to |sessions|
        invariant trace == old(trace) + StopEffects(sessions[..i])
      {
        trace := trace + [SessionStopped(sessions[i])];
      }
      assert sessions[..|sessions|] == sessions;
      if model.services.None? {
        return true;
      }
      threw := false;
      var services := model.services.value;
      var stopped := trace;
      for i := 0 to |services|
        invariant trace == stopped + RemoveEffects(services[..i])
      {
        trace := trace + [PublisherServiceRemoved(services[i])];
      }
      assert services[..|services|] == services;
    }
  }

  /**
   * Starting a group twice keeps two sessions per service; closing it then stops all
   * of them, each once, and removes each service once per close.
   */
  method StartTwiceThenClose(services: seq<ServiceConfig>, m: Model)
    returns (kept: nat, stopped: nat, removed: nat)
    requires m.services == Some(services)
    ensures kept == 2 * |services|
    ensures stopped == 2 * |services|
    ensures removed == |services|
  {
    var group := new Group(m);
    var threw := group.Start();
    threw := group.Start();
    kept := |group.sessions|;
    var before := |group.trace|;
    threw := group.Close();
    var closing := group.trace[before..];
    assert closing == StopEffects(group.sessions) + RemoveEffects(services);
    stopped := |StopEffects(group.sessions)|;
    removed := |closing| - stopped;
  }
}
