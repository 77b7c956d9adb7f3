/**
 * The older per-service polling scheduler (ServiceSession).
 *
 * Unlike its successor it walks the service's configured endpoint list, in order, and
 * adds and removes map entries rather than keeping null placeholders. Every endpoint
 * is polled with a fixed delay equal to the service's poll period; the executor
 * rejects a period that is not positive with IllegalArgumentException. Completed
 * polls are published to the Diffusion client while the session runs; failures and
 * cancellations are only logged.
 */
module ServiceSession {
  import opened Wrappers
  import opened Config

  /** A future handed out by the executor or the poll client. */
  type FutureId = nat

  /** A polled JSON value; its content is not modelled. */
  type Json = nat

  datatype PollHandle = PollHandle(task: FutureId, currentPoll: Option<FutureId>)

  datatype Effect =
    | ScheduledWithFixedDelay(task: FutureId, endpoint: EndpointConfig, initialDelay: int, delay: int)
    | TaskCancelled(task: FutureId)
    | PollCancelled(poll: FutureId)
    | Requested(poll: FutureId, endpoint: EndpointConfig)
    | Published(endpoint: EndpointConfig, value: Json)

  /** No two positions of `s` hold the same value. */
  predicate Distinct<T(==)>(s: seq<T>) {
    forall i, j :: 0 <= i < j < |s| ==> s[i] != s[j]
  }

  /** The tasks `start` schedules: one per endpoint, in order, numbered from `first`. */
  function StartEffects(endpoints: seq<EndpointConfig>, first: FutureId, period: int): (r: seq<Effect>)
    ensures |r| == |endpoints|
  {
    seq(|endpoints|, i requires 0 <= i < |endpoints| => ScheduledWithFixedDelay(first + i, endpoints[i], 0, period))
  }

  /** `stopEndpoint`: cancels the task, then the poll in flight if there is one. */
  function CancelEffects(h: PollHandle): seq<Effect> {
    [TaskCancelled(h.task)] + (if h.currentPoll.Some? then [PollCancelled(h.currentPoll.value)] else [])
  }

  /** The cancellations of `stop`, endpoint by endpoint. */
  function StopEffects(endpoints: seq<EndpointConfig>, pollers: map<EndpointConfig, PollHandle>): seq<Effect>
    requires forall i :: 0 <= i < |endpoints| ==> endpoints[i] in pollers
  {
    if endpoints == [] then [] else CancelEffects(pollers[endpoints[0]]) + StopEffects(endpoints[1..], pollers)
  }

  lemma {:induction false} StopEffectsAppend(
    endpoints: seq<EndpointConfig>, e: EndpointConfig, pollers: map<EndpointConfig, PollHandle>)
    requires forall i :: 0 <= i < |endpoints| ==> endpoints[i] in pollers
    requires e in pollers
    ensures StopEffects(endpoints + [e], pollers) == StopEffects(endpoints, pollers) + CancelEffects(pollers[e])
    decreases |endpoints|
  {
    if endpoints == [] {
      assert endpoints + [e] == [e];
    } else {
      assert (endpoints + [e])[1..] == endpoints[1..] + [e];
      StopEffectsAppend(endpoints[1..], e, pollers);
    }
  }

  /** `stop` cancels the task of every endpoint it visits, and does nothing but cancel. */
  lemma {:induction false} StopCancelsEveryTask(endpoints: seq<EndpointConfig>, pollers: map<EndpointConfig, PollHandle>)
    requires forall i :: 0 <= i < |endpoints| ==> endpoints[i] in pollers
    ensures forall x :: x in StopEffects(endpoints, pollers) ==> x.TaskCancelled? || x.PollCancelled?
    ensures forall i :: 0 <= i < |endpoints| ==> TaskCancelled(pollers[endpoints[i]].task) in StopEffects(endpoints, pollers)
    decreases |endpoints|
  {
    if endpoints != [] {
      StopCancelsEveryTask(endpoints[1..], pollers);
      forall i | 0 <= i < |endpoints|
        ensures TaskCancelled(pollers[endpoints[i]].task) in StopEffects(endpoints, pollers)
      {
        if i > 0 {
          assert endpoints[i] == endpoints[1..][i - 1];
        }
      }
    }
  }

  class Session {
    const service: ServiceConfig
    var pollers: map<EndpointConfig, PollHandle>
    var isRunning: bool
    /** The number of the next future handed out. */
    var nextId: FutureId
    /** Every outside effect performed so far, in order. */
    var trace: seq<Effect>

    constructor (service: ServiceConfig)
      ensures this.service == service
      ensures pollers == map[] && !isRunning && nextId == 0 && trace == []
    {
      this.service := service;
      pollers := map[];
      isRunning := false;
      nextId := 0;
      trace := [];
    }

    /**
     * `startEndpoint`: the assertion demands an untracked endpoint; the executor throws on
     * a period that is not positive, before anything is tracked.
     */
    method StartEndpoint(e: EndpointConfig) returns (threw: bool)
      requires e !in pollers
      modifies this`pollers, this`nextId, this`trace
      ensures threw <==> service.pollPeriod <= 0
      ensures threw ==> pollers == old(pollers) && nextId == old(nextId) && trace == old(trace)
      ensures !threw ==>
        && pollers == old(pollers)[e := PollHandle(old(nextId), None)]
        && nextId == old(nextId) + 1
        && trace == old(trace) + [ScheduledWithFixedDelay(old(nextId), e, 0, service.pollPeriod)]
    {
      if service.pollPeriod <= 0 {
        return true;
      }
      var task := nextId;
      nextId := nextId + 1;
      trace := trace + [ScheduledWithFixedDelay(task, e, 0, service.pollPeriod)];
      pollers := pollers[e := PollHandle(task, None)];
      threw := false;
    }

    /** `start`: sets the running flag and starts exactly the configured endpoints, in order. */
    method Start() returns (threw: bool)
      requires Distinct(service.endpoints)
      requires forall i :: 0 <= i < |service.endpoints| ==> service.endpoints[i] !in pollers
      modifies this`pollers, this`isRunning, this`nextId, this`trace
      ensures isRunning
      ensures threw <==> service.pollPeriod <= 0 && service.endpoints != []
      ensures threw ==> pollers == old(pollers) && nextId == old(nextId) && trace == old(trace)
      ensures !threw ==>
        && nextId == old(nextId) + |service.endpoints|
        && trace == old(trace) + StartEffects(service.endpoints, old(nextId), service.pollPeriod)
        && pollers.Keys == old(pollers).Keys + (set e | e in service.endpoints)
        && (forall e :: e in old(pollers) ==> pollers[e] == old(pollers)[e])
        && (forall i :: 0 <= i < |service.endpoints| ==>
              pollers[service.endpoints[i]] == PollHandle(old(nextId) + i, None))
    {
      isRunning := true;
      var endpoints := service.endpoints;
      threw := false;
      var i := 0;
      while i < |endpoints|
        invariant 0 <= i <= |endpoints|
        invariant isRunning && !threw
        invariant nextId == old(nextId) + i
        invariant trace == old(trace) + StartEffects(endpoints[..i], old(nextId), service.pollPeriod)
        invariant pollers.Keys == old(pollers).Keys + (set e | e in endpoints[..i])
        invariant forall e :: e in old(pollers) ==> pollers[e] == old(pollers)[e]
        invariant forall j :: 0 <= j < i ==> pollers[endpoints[j]] == PollHandle(old(nextId) + j, None)
        invariant i > 0 ==> service.pollPeriod > 0
      {
        assert endpoints[i] !in pollers by {
          assert forall j :: 0 <= j < i ==> endpoints[j] != endpoints[i];
        }
        threw := StartEndpoint(endpoints[i]);
        if threw {
          return;
        }
        assert endpoints[..i + 1] == endpoints[..i] + [endpoints[i]];
        i := i + 1;
      }
      assert endpoints[..i] == endpoints;
    }

    /** `stopEndpoint`: the assertion demands a tracked endpoint; removes it and cancels its futures. */
    method StopEndpoint(e: EndpointConfig)
      requires e in pollers
      modifies this`pollers, this`trace
      ensures pollers == old(pollers) - {e}
      ensures trace == old(trace) + CancelEffects(old(pollers)[e])
    {
      var h := pollers[e];
      pollers := pollers - {e};
      trace := trace + [TaskCancelled(h.task)];
      if h.currentPoll.Some? {
        trace := trace + [PollCancelled(h.currentPoll.value)];
      }
    }

    /** `stop`: clears the running flag and stops exactly the configured endpoints, in order. */
    method Stop()
      requires Distinct(service.endpoints)
      requires forall i :: 0 <= i < |service.endpoints| ==> service.endpoints[i] in pollers
      modifies this`pollers, this`isRunning, this`trace
      ensures !isRunning
      ensures pollers == old(pollers) - (set e | e in service.endpoints)
      ensures trace == old(trace) + StopEffects(service.endpoints, old(pollers))
    {
      isRunning := false;
      var endpoints := service.endpoints;
      var i := 0;
      while i < |endpoints|
        invariant 0 <= i <= |endpoints|
        invariant !isRunning
        invariant pollers == old(pollers) - (set e | e in endpoints[..i])
        invariant trace == old(trace) + StopEffects(endpoints[..i], old(pollers))
      {
        assert endpoints[i] in pollers by {
          assert forall j :: 0 <= j < i ==> endpoints[j] != endpoints[i];
        }
        StopEffectsAppend(endpoints[..i], endpoints[i], old(pollers));
        StopEndpoint(endpoints[i]);
        assert endpoints[..i + 1] == endpoints[..i] + [endpoints[i]];
        i := i + 1;
      }
      assert endpoints[..i] == endpoints;
    }

    /**
     * `PollingTask.run`: issues the request, then records it on the endpoint's handle; an
     * untracked endpoint makes the assignment throw after the request has gone out.
     */
    method RunPollingTask(e: EndpointConfig) returns (threw: bool)
      modifies this`pollers, this`nextId, this`trace
      ensures nextId == old(nextId) + 1
      ensures trace == old(trace) + [Requested(old(nextId), e)]
      ensures threw <==> e !in old(pollers)
      ensures !threw ==> pollers == old(pollers)[e := old(pollers)[e].(currentPoll := Some(old(nextId)))]
      ensures threw ==> pollers == old(pollers)
    {
      var request := nextId;
      nextId := nextId + 1;
      trace := trace + [Requested(request, e)];
      if e !in pollers {
        return true;
      }
      threw := false;
      pollers := pollers[e := pollers[e].(currentPoll := Some(request))];
    }

    /** `PollResultHandler.completed`: publishes only while running. */
    method Completed(e: EndpointConfig, value: Json)
      modifies this`trace
      ensures isRunning ==> trace == old(trace) + [Published(e, value)]
      ensures !isRunning ==> trace == old(trace)
    {
      if isRunning {
        trace := trace + [Published(e, value)];
      }
    }

    /** `PollResultHandler.failed`: only logged; nothing is published. */
    method Failed(e: EndpointConfig)
      ensures trace == old(trace)
    {
    }

    /** `PollResultHandler.cancelled`: only logged; nothing is published. */
    method Cancelled(e: EndpointConfig)
      ensures trace == old(trace)
    {
    }
  }

  /**
   * A whole session life: start then stop a service with distinct endpoints and a positive
   * period. Every endpoint gets one task, the map ends empty, and a value completed after
   * `stop` is not published.
   */
  method StartThenStop(service: ServiceConfig, value: Json)
    returns (threw: bool, scheduled: nat, remaining: nat, published: bool)
    requires Distinct(service.endpoints)
    ensures threw <==> service.pollPeriod <= 0 && service.endpoints != []
    ensures !threw ==> scheduled == |service.endpoints| && remaining == 0 && !published
  {
    var session := new Session(service);
    threw := session.Start();
    if threw {
      return threw, 0, 0, false;
    }
    scheduled := |session.trace|;
    session.Stop();
    remaining := |session.pollers|;
    if service.endpoints != [] {
      var before := |session.trace|;
      session.Completed(service.endpoints[0], value);
      published := |session.trace| > before;
    } else {
      published := false;
    }
  }
}
