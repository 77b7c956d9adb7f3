/**
 * The HTTP client that polls endpoints (EndpointClientImpl). `start` creates and
 * starts an asynchronous HTTP client and keeps it; `request` refuses to run before
 * that, tells the poll listener of the request and executes a GET of the endpoint's
 * URL on the service's host, port and scheme. Each HTTP callback completes the
 * returned future once: a status of 400 or more fails it without notifying the
 * listener, a readable response is passed to the listener and then completes the
 * future, a failure to read the body or a transport failure is passed to the
 * listener and fails the future, and a cancellation cancels it. `close` closes the
 * kept client without forgetting it.
 */
module EndpointClient {
  import opened Wrappers
  import opened Config

  /** An HTTP client made by the client factory, identified by number. */
  type HttpClientId = nat
  /** One call of `request`, identified by number; it names the future it returns. */
  type RequestId = nat
  /** A parsed endpoint response; its content is not modelled. */
  type Response = nat

  datatype HttpHost = HttpHost(host: string, port: int, scheme: string)

  /** Why a returned future fails. */
  datatype Failure =
    | ErrorStatus(status: int)   // "Received response " and the status line
    | ReadFailure(code: nat)     // the IOException of reading the response body
    | TransportFailure(code: nat)

  /** What the HTTP client reports for one execution. */
  datatype Callback =
    | Completed(status: int, body: Result<Response, nat>)
    | Failed(code: nat)
    | Cancelled

  datatype Effect =
    | ClientCreated(client: HttpClientId)
    | ClientStarted(client: HttpClientId)
    | ClientClosed(client: HttpClientId)
    | PollRequested(request: RequestId, service: ServiceConfig, endpoint: EndpointConfig)
    | Executed(request: RequestId, client: HttpClientId, target: HttpHost, url: string)
    | ResponseNotified(request: RequestId, response: Response)
    | FailureNotified(request: RequestId, failure: Failure)
    | FutureCompleted(request: RequestId, response: Response)
    | FutureFailed(request: RequestId, failure: Failure)
    | FutureCancelled(request: RequestId)

  /** The scheme of a service's requests. */
  function Scheme(secure: bool): (r: string)
    ensures r == "https" <==> secure
    ensures r == "http" <==> !secure
  {
    if secure then "https" else "http"
  }

  predicate IsListenerNotice(e: Effect) {
    e.ResponseNotified? || e.FailureNotified?
  }

  predicate IsFutureCompletion(e: Effect) {
    e.FutureCompleted? || e.FutureFailed? || e.FutureCancelled?
  }

  /** The number of poll requests the listener hears of in a trace. */
  function PollNotices(t: seq<Effect>): nat {
    if t == [] then 0 else (if t[0].PollRequested? then 1 else 0) + PollNotices(t[1..])
  }

  /** The callback's handling for request `request`. */
  function Completion(request: RequestId, callback: Callback): (r: seq<Effect>)
    // the future is completed exactly once, and last
    ensures |r| >= 1 && IsFutureCompletion(r[|r| - 1])
    ensures forall i :: 0 <= i < |r| - 1 ==> !IsFutureCompletion(r[i])
    ensures forall i :: 0 <= i < |r| ==> (IsListenerNotice(r[i]) || IsFutureCompletion(r[i])) && r[i].request == request
    // the listener hears of it at most once, and only of what completes the future
    ensures |r| <= 2
    ensures |r| == 2 ==> IsListenerNotice(r[0])
    ensures r[|r| - 1].FutureCompleted? <==> callback.Completed? && callback.status < 400 && callback.body.Ok?
    ensures r[|r| - 1].FutureCompleted? ==> r == [ResponseNotified(request, callback.body.value), FutureCompleted(request, callback.body.value)]
    ensures r[|r| - 1].FutureCancelled? <==> callback.Cancelled?
    ensures callback.Cancelled? || (callback.Completed? && callback.status >= 400) <==> |r| == 1
    ensures r[|r| - 1].FutureFailed? && |r| == 2 ==> r[0] == FailureNotified(request, r[1].failure)
  {
    match callback
    case Completed(status, body) =>
      if status >= 400 then [FutureFailed(request, ErrorStatus(status))]
      else (match body
        case Ok(response) => [ResponseNotified(request, response), FutureCompleted(request, response)]
        case Err(code) => [FailureNotified(request, ReadFailure(code)), FutureFailed(request, ReadFailure(code))])
    case Failed(code) => [FailureNotified(request, TransportFailure(code)), FutureFailed(request, TransportFailure(code))]
    case Cancelled => [FutureCancelled(request)]
  }

  class Client {
    /** The running HTTP client, or null before `start`. */
    var client: Option<HttpClientId>
    var nextClient: HttpClientId
    var nextRequest: RequestId
    /** Every outside effect performed so far, in order. */
    var trace: seq<Effect>

    constructor ()
      ensures client == None && nextClient == 0 && nextRequest == 0 && trace == []
    {
      client := None;
      nextClient := 0;
      nextRequest := 0;
      trace := [];
    }

    /** `start`: a new client from the factory, started, then kept (replacing any earlier one). */
    method Start()
      modifies this`client, this`nextClient, this`trace
      ensures client == Some(old(nextClient)) && nextClient == old(nextClient) + 1
      ensures trace == old(trace) + [ClientCreated(old(nextClient)), ClientStarted(old(nextClient))]
    {
      var created := nextClient;
      nextClient := nextClient + 1;
      trace := trace + [ClientCreated(created), ClientStarted(created)];
      client := Some(created);
    }

    /**
     * `request`: IllegalStateException before `start`; otherwise the poll listener
     * hears of the request, then the GET is executed.
     */
    method Request(service: ServiceConfig, endpoint: EndpointConfig) returns (threw: bool, request: RequestId)
      modifies this`nextRequest, this`trace
      ensures threw <==> old(client).None?
      ensures threw ==> nextRequest == old(nextRequest) && trace == old(trace)
      ensures !threw ==>
        && request == old(nextRequest) && nextRequest == old(nextRequest) + 1
        && trace == old(trace) + [
             PollRequested(request, service, endpoint),
             Executed(request, client.value, HttpHost(service.host, service.port, Scheme(service.secure)), endpoint.url)]
    {
      if client.None? {
        return true, 0;
      }
      threw := false;
      request := nextRequest;
      nextRequest := nextRequest + 1;
      trace := trace + [PollRequested(request, service, endpoint)];
      trace := trace + [Executed(request, client.value, HttpHost(service.host, service.port, Scheme(service.secure)), endpoint.url)];
    }

    /** The HTTP client calls back for request `request`. */
    method OnCallback(request: RequestId, callback: Callback)
      modifies this`trace
      ensures trace == old(trace) + Completion(request, callback)
    {
      match callback {
        case Completed(status, body) =>
          if status >= 400 {
            trace := trace + [FutureFailed(request, ErrorStatus(status))];
          } else if body.Ok? {
            trace := trace + [ResponseNotified(request, body.value)];
            trace := trace + [FutureCompleted(request, body.value)];
          } else {
            trace := trace + [FailureNotified(request, ReadFailure(body.error))];
            trace := trace + [FutureFailed(request, ReadFailure(body.error))];
          }
        case Failed(code) =>
          trace := trace + [FailureNotified(request, TransportFailure(code))];
          trace := trace + [FutureFailed(request, TransportFailure(code))];
        case Cancelled =>
          trace := trace + [FutureCancelled(request)];
      }
    }

    /** `close`: closes the kept client, which stays set; before `start` it dereferences null. */
    method Close() returns (threw: bool)
      modifies this`trace
      ensures threw <==> client.None?
      ensures threw ==> trace == old(trace)
      ensures !threw ==> trace == old(trace) + [ClientClosed(client.value)]
    {
      if client.None? {
        return true;
      }
      threw := false;
      trace := trace + [ClientClosed(client.value)];
    }
  }

  /**
   * A client's life: a request before `start` is refused with nothing done; after
   * `start` a request notifies the listener once and executes once; after `close`
   * the client is still set, so a further request passes the adapter's own null
   * guard and is handed to the closed HTTP client.
   */
  method RequestLifecycle(service: ServiceConfig, endpoint: EndpointConfig)
    returns (refusedBeforeStart: bool, effectsBeforeStart: nat, notices: nat, passesGuardAfterClose: bool)
    ensures refusedBeforeStart && effectsBeforeStart == 0
    ensures notices == 1
    ensures passesGuardAfterClose
  {
    var c := new Client();
    var threw, request := c.Request(service, endpoint);
    refusedBeforeStart := threw;
    effectsBeforeStart := |c.trace|;
    c.Start();
    var before := |c.trace|;
    threw, request := c.Request(service, endpoint);
    assert c.trace[before..] == [
      PollRequested(request, service, endpoint),
      Executed(request, 0, HttpHost(service.host, service.port, Scheme(service.secure)), endpoint.url)];
    var t := c.trace[before..];
    assert t[0].PollRequested? && !t[1].PollRequested?;
    assert PollNotices(t[1..]) == 0 by {
      assert t[1..][1..] == [];
    }
    notices := PollNotices(t);
    threw := c.Close();
    threw, request := c.Request(service, endpoint);
    passesGuardAfterClose := !threw;
  }
}
