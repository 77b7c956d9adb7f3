/**
 * The per-service polling scheduler (ServiceSessionImpl).
 *
 * The session tracks a map from endpoint to poll handle (absent while stopped) and a
 * running flag. Starting an endpoint schedules a polling task on the executor; the
 * task, when it runs, issues a request and records it as the endpoint's current poll.
 * Scheduling, cancelling and requesting are recorded in `trace`; futures are
 * identified by number. The iteration order of the Java HashMap is unspecified, so
 * the loops over the map visit the keys in an arbitrary order that their contracts
 * report as a ghost `order`.
 */
module ServiceSessionImpl {
  import opened Wrappers
  import opened Config

  /** A future handed out by the executor or the endpoint client. */
  type FutureId = nat

  /** An endpoint response; its content is not modelled. */
  type Response = nat

  /** `PollHandle`: the polling task's future and the future of the poll in flight, if any. */
  datatype PollHandle = PollHandle(task: FutureId, currentPoll: Option<FutureId>)

  /** How a polling task is scheduled, delays in milliseconds. */
  datatype Schedule = Once(delay: int) | FixedDelay(initialDelay: int, delay: int)

  datatype Effect =
    | Scheduled(task: FutureId, endpoint: EndpointConfig, schedule: Schedule)
    | TaskCancelled(task: FutureId)
    | PollCancelled(poll: FutureId)
    | Requested(poll: FutureId, endpoint: EndpointConfig)
    | DelegateCompleted(endpoint: EndpointConfig, response: Response)
    | DelegateFailed(endpoint: EndpointConfig)
    | DelegateCancelled(endpoint: EndpointConfig)

  /** The schedule `startEndpoint` chooses: one immediate poll, or a repeating one every period. */
  function ScheduleFor(pollPeriod: int): (s: Schedule)
    ensures s.Once? <==> pollPeriod <= 0
    ensures s.Once? ==> s.delay == 0
    ensures s.FixedDelay? ==> s.initialDelay == 0 && s.delay == pollPeriod && s.delay > 0
  {
    if pollPeriod <= 0 then Once(0) else FixedDelay(0, pollPeriod)
  }

  /** `stopEndpoint`: cancels the task and the poll in flight, if there is a handle. */
  function CancelEffects(h: Option<PollHandle>): seq<Effect> {
    match h
    case None => []
    case Some(p) => [TaskCancelled(p.task)] + (if p.currentPoll.Some? then [PollCancelled(p.currentPoll.value)] else [])
  }

  /** The cancellations of `stop`, visiting the endpoints in `order`. */
  function StopEffects(order: seq<EndpointConfig>, pollers: map<EndpointConfig, Option<PollHandle>>): seq<Effect>
    requires forall i :: 0 <= i < |order| ==> order[i] in pollers
  {
    if order == [] then [] else CancelEffects(pollers[order[0]]) + StopEffects(order[1..], pollers)
  }

  lemma {:induction false} StopEffectsAppend(
    order: seq<EndpointConfig>, e: EndpointConfig, pollers: map<EndpointConfig, Option<PollHandle>>)
    requires forall i :: 0 <= i < |order| ==> order[i] in pollers
    requires e in pollers
    ensures StopEffects(order + [e], pollers) == StopEffects(order, pollers) + CancelEffects(pollers[e])
    decreases |order|
  {
    if order == [] {
      assert order + [e] == [e];
    } else {
      assert (order + [e])[1..] == order[1..] + [e];
      StopEffectsAppend(order[1..], e, pollers);
    }
  }

  /** The same, after any earlier effects. */
  lemma StopEffectsAppendAfter(
    prefix: seq<Effect>, order: seq<EndpointConfig>, e: EndpointConfig, pollers: map<EndpointConfig, Option<PollHandle>>)
    requires forall i :: 0 <= i < |order| ==> order[i] in pollers
    requires e in pollers
    ensures prefix + StopEffects(order + [e], pollers) == prefix + StopEffects(order, pollers) + CancelEffects(pollers[e])
  {
    StopEffectsAppend(order, e, pollers);
  }

  /**
   * `stop` only cancels, and it cancels the task of every visited endpoint that has a handle.
   */
  lemma {:induction false} StopCancelsEveryTask(
    order: seq<EndpointConfig>, pollers: map<EndpointConfig, Option<PollHandle>>)
    requires forall i :: 0 <= i < |order| ==> order[i] in pollers
    ensures forall x :: x in StopEffects(order, pollers) ==> x.TaskCancelled? || x.PollCancelled?
    ensures forall i :: 0 <= i < |order| && pollers[order[i]].Some? ==>
      TaskCancelled(pollers[order[i]].value.task) in StopEffects(order, pollers)
    decreases |order|
  {
    if order != [] {
      StopCancelsEveryTask(order[1..], pollers);
      forall i | 0 <= i < |order| && pollers[order[i]].Some?
        ensures TaskCancelled(pollers[order[i]].value.task) in StopEffects(order, pollers)
      {
        if i > 0 {
          assert order[i] == order[1..][i - 1];
        }
      }
    }
  }

  /** No two positions of `s` hold the same value. */
  predicate NoDuplicates<T(==)>(s: seq<T>) {
    forall i, j :: 0 <= i < j < |s| ==> s[i] != s[j]
  }

  /**
   * Part way through `stop`: the endpoints in `order` have been visited, once each, and
   * now map to no handle; those in `todo` have not, and keep their original handle.
   */
  ghost predicate StopProgress<K, V>(orig: map<K, Option<V>>, cur: map<K, Option<V>>, order: seq<K>, todo: set<K>) {
    && cur.Keys == orig.Keys
    && todo <= cur.Keys
    && (forall i :: 0 <= i < |order| ==> order[i] in orig)
    && (forall e :: e in cur ==> (e in todo <==> e !in order))
    && (forall e :: e in cur ==> cur[e] == if e in order then None else orig[e])
    && NoDuplicates(order)
  }

  lemma StopProgressInit<K, V>(p: map<K, Option<V>>)
    ensures StopProgress(p, p, [], p.Keys)
  {
  }

  lemma StopProgressStep<K, V>(orig: map<K, Option<V>>, cur: map<K, Option<V>>, order: seq<K>, todo: set<K>, e: K)
    requires StopProgress(orig, cur, order, todo) && e in todo
    ensures e in orig && cur[e] == orig[e]
    ensures StopProgress(orig, cur[e := None], order + [e], todo - {e})
  {
    var order' := order + [e];
    assert forall x :: x in order' <==> x in order || x == e;
  }

  lemma StopProgressDone<K, V>(orig: map<K, Option<V>>, cur: map<K, Option<V>>, order: seq<K>)
    requires StopProgress(orig, cur, order, {})
    ensures cur.Keys == orig.Keys
    ensures forall e :: e in cur ==> cur[e].None?
    ensures NoDuplicates(order) && (forall e :: e in order <==> e in cur)
  {
    forall e | e in order
      ensures e in cur
    {
      var i :| 0 <= i < |order| && order[i] == e;
    }
  }

  class Session {
    const service: ServiceConfig
    var pollers: map<EndpointConfig, Option<PollHandle>>
    var isRunning: bool
    /** The number of the next future handed out. */
    var nextId: FutureId
    /** Every outside effect performed so far, in order. */
    var trace: seq<Effect>

    constructor (service: ServiceConfig)
      ensures this.service == service
      ensures pollers == map[] && !isRunning && nextId == 0 && trace == []
    {
      this.service := service;
      pollers := map[];
      isRunning := false;
      nextId := 0;
      trace := [];
    }

    /** `startEndpoint`: schedules the polling task and returns its fresh handle. */
    method StartEndpoint(e: EndpointConfig) returns (h: PollHandle)
      requires e !in pollers || pollers[e].None?
      modifies this`nextId, this`trace
      ensures h == PollHandle(old(nextId), None) && nextId == old(nextId) + 1
      ensures trace == old(trace) + [Scheduled(h.task, e, ScheduleFor(service.pollPeriod))]
    {
      h := PollHandle(nextId, None);
      nextId := nextId + 1;
      trace := trace + [Scheduled(h.task, e, ScheduleFor(service.pollPeriod))];
    }

    /**
     * `start`: sets the running flag and gives every tracked endpoint a fresh handle. The
     * assertion in `startEndpoint` demands that no endpoint has a handle yet.
     */
    method Start() returns (ghost order: seq<EndpointConfig>)
      requires forall e :: e in pollers ==> pollers[e].None?
      modifies this`pollers, this`isRunning, this`nextId, this`trace
      ensures isRunning
      ensures pollers.Keys == old(pollers).Keys
      ensures NoDuplicates(order) && (forall e :: e in order <==> e in pollers)
      ensures nextId == old(nextId) + |order|
      ensures |trace| == |old(trace)| + |order| && trace[..|old(trace)|] == old(trace)
      ensures forall i :: 0 <= i < |order| ==>
        && pollers[order[i]] == Some(PollHandle(old(nextId) + i, None))
        && trace[|old(trace)| + i] == Scheduled(old(nextId) + i, order[i], ScheduleFor(service.pollPeriod))
    {
      isRunning := true;
      var todo := pollers.Keys;
      order := [];
      while todo != {}
        invariant isRunning
        invariant pollers.Keys == old(pollers).Keys
        invariant todo <= pollers.Keys
        invariant forall e :: e in todo ==> pollers[e].None? && e !in order
        invariant forall e :: e in pollers ==> e in todo || e in order
        invariant forall e :: e in order ==> e in pollers
        invariant NoDuplicates(order)
        invariant nextId == old(nextId) + |order|
        invariant |trace| == |old(trace)| + |order| && trace[..|old(trace)|] == old(trace)
        invariant forall i :: 0 <= i < |order| ==>
          && pollers[order[i]] == Some(PollHandle(old(nextId) + i, None))
          && trace[|old(trace)| + i] == Scheduled(old(nextId) + i, order[i], ScheduleFor(service.pollPeriod))
        decreases todo
      {
        var e :| e in todo;
        var h := StartEndpoint(e);
        pollers := pollers[e := Some(h)];
        order := order + [e];
        todo := todo - {e};
      }
    }

    /** `addEndpoint`: a tracked endpoint is left alone; a new one gets a handle only while running. */
    method AddEndpoint(e: EndpointConfig)
      modifies this`pollers, this`nextId, this`trace
      ensures e in old(pollers) ==> pollers == old(pollers) && nextId == old(nextId) && trace == old(trace)
      ensures e !in old(pollers) && isRunning ==>
        && pollers == old(pollers)[e := Some(PollHandle(old(nextId), None))]
        && nextId == old(nextId) + 1
        && trace == old(trace) + [Scheduled(old(nextId), e, ScheduleFor(service.pollPeriod))]
      ensures e !in old(pollers) && !isRunning ==>
        pollers == old(pollers)[e := None] && nextId == old(nextId) && trace == old(trace)
    {
      if e in pollers {
        return;
      }
      if isRunning {
        var h := StartEndpoint(e);
        pollers := pollers[e := Some(h)];
      } else {
        pollers := pollers[e := None];
      }
    }

    /** `stopEndpoint`: cancels the task, then the poll in flight, if there is a handle. */
    method StopEndpoint(h: Option<PollHandle>)
      modifies this`trace
      ensures trace == old(trace) + CancelEffects(h)
    {
      if h.Some? {
        trace := trace + [TaskCancelled(h.value.task)];
        if h.value.currentPoll.Some? {
          trace := trace + [PollCancelled(h.value.currentPoll.value)];
        }
      }
    }

    /** `stop`: clears the running flag and cancels every handle, keeping the keys mapped to no handle. */
    method Stop() returns (ghost order: seq<EndpointConfig>)
      modifies this`pollers, this`isRunning, this`trace
      ensures !isRunning
      ensures pollers.Keys == old(pollers).Keys
      ensures forall e :: e in pollers ==> pollers[e].None?
      ensures NoDuplicates(order) && (forall e :: e in order <==> e in pollers)
      ensures trace == old(trace) + StopEffects(order, old(pollers))
    {
      isRunning := false;
      ghost var p0, t0 := pollers, trace;
      var todo := pollers.Keys;
      order := [];
      StopProgressInit(p0);
      while todo != {}
        invariant !isRunning
        invariant StopProgress(p0, pollers, order, todo)
        invariant trace == t0 + StopEffects(order, p0)
        decreases todo
      {
        var e :| e in todo;
        StopProgressStep(p0, pollers, order, todo, e);
        StopEffectsAppendAfter(t0, order, e, p0);
        StopEndpoint(pollers[e]);
        pollers := pollers[e := None];
        order := order + [e];
        todo := todo - {e};
      }
      StopProgressDone(p0, pollers, order);
    }

    /**
     * `PollingTask.run`: issues the request and records it as the endpoint's current poll.
     * Java evaluates the map lookup, then the request, then dereferences the looked-up
     * handle: with no handle the request is still issued and the assignment throws.
     */
    method RunPollingTask(e: EndpointConfig) returns (threw: bool)
      modifies this`pollers, this`nextId, this`trace
      ensures nextId == old(nextId) + 1
      ensures trace == old(trace) + [Requested(old(nextId), e)]
      ensures threw <==> e !in old(pollers) || old(pollers)[e].None?
      ensures !threw ==> pollers == old(pollers)[e := Some(old(pollers)[e].value.(currentPoll := Some(old(nextId))))]
      ensures threw ==> pollers == old(pollers)
    {
      var request := nextId;
      nextId := nextId + 1;
      trace := trace + [Requested(request, e)];
      if e !in pollers || pollers[e].None? {
        threw := true;
        return;
      }
      threw := false;
      pollers := pollers[e := Some(pollers[e].value.(currentPoll := Some(request)))];
    }

    /** `PollResultHandler.completed`: forwarded to the endpoint's handler only while running. */
    method Completed(e: EndpointConfig, response: Response)
      modifies this`trace
      ensures isRunning ==> trace == old(trace) + [DelegateCompleted(e, response)]
      ensures !isRunning ==> trace == old(trace)
    {
      if isRunning {
        trace := trace + [DelegateCompleted(e, response)];
      }
    }

    /** `PollResultHandler.failed`: forwarded whatever the running state. */
    method Failed(e: EndpointConfig)
      modifies this`trace
      ensures trace == old(trace) + [DelegateFailed(e)]
    {
      trace := trace + [DelegateFailed(e)];
    }

    /** `PollResultHandler.cancelled`: forwarded whatever the running state. */
    method Cancelled(e: EndpointConfig)
      modifies this`trace
      ensures trace == old(trace) + [DelegateCancelled(e)]
    {
      trace := trace + [DelegateCancelled(e)];
    }
  }

  /**
   * A scenario over one endpoint: add it, start, stop, then a response arrives. The
   * handle is scheduled as the period says, the late response is dropped, and the
   * `stop` leaves the endpoint tracked with a null handle.
   */
  method StartStopDropsLateResponse(service: ServiceConfig, e: EndpointConfig, response: Response)
    returns (scheduled: Schedule, delivered: bool, handlesCleared: bool)
    ensures scheduled == ScheduleFor(service.pollPeriod)
    ensures !delivered
    ensures handlesCleared
  {
    var session := new Session(service);
    session.AddEndpoint(e);
    assert session.pollers == map[e := None] && session.trace == [] && session.nextId == 0;
    ghost var order := session.Start();
    assert e in order;
    assert session.trace[0] == Scheduled(0, order[0], ScheduleFor(service.pollPeriod));
    scheduled := session.trace[0].schedule;
    order := session.Stop();
    var before := |session.trace|;
    session.Completed(e, response);
    delivered := |session.trace| > before;
    handlesCleared := session.pollers == map[e := None];
  }
}
