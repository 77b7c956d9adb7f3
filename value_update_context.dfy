/**
 * The update context for value topics (ValueUpdateContext).
 *
 * It follows the recovery-aware publish path, but what it caches is a request: the
 * value together with the completion listener the publication listener handed out
 * when the value was published. The publication listener is told of every request,
 * with the value's encoded length, at publish time, whether the value is sent or
 * cached. Each `set` on the update stream later completes, and its completion
 * notifies that request's listener once.
 */
module ValueUpdateContext {
  import opened Wrappers
  import opened DiffusionSession

  /** A completion listener returned by the publication listener, identified by number. */
  type ListenerId = nat

  datatype ErrorReason = CommunicationFailure

  /** `CachedRequest`: a value waiting for recovery and the listener for its outcome. */
  datatype CachedRequest<T> = CachedRequest(value: T, completionListener: ListenerId)

  datatype Effect<T> =
    | PublicationRequested(path: string, length: nat, listener: ListenerId)
    | UpdateSet(value: T, listener: ListenerId)
    | Published(listener: ListenerId)
    | PublicationFailed(listener: ListenerId, reason: ErrorReason)

  /** The notice a completed `set` gives its completion listener. */
  function CompletionNotice<T>(listener: ListenerId, failed: bool): (r: Effect<T>)
    ensures r.Published? || r.PublicationFailed?
    ensures r.listener == listener
    ensures r.PublicationFailed? <==> failed
    ensures r.PublicationFailed? ==> r.reason == CommunicationFailure
  {
    if failed then PublicationFailed(listener, CommunicationFailure) else Published(listener)
  }

  class Context<T> {
    const session: SessionId
    const path: string
    /** `dataType.toBytes(value).length()`; the encoding itself is not modelled. */
    const encodedLength: T -> nat
    var cachedValue: Option<CachedRequest<T>>
    /** The number of the next completion listener the publication listener hands out. */
    var nextListener: ListenerId
    /** Every outside effect performed so far, in order. */
    var trace: seq<Effect<T>>

    constructor (session: SessionId, path: string, encodedLength: T -> nat)
      ensures this.session == session && this.path == path && this.encodedLength == encodedLength
      ensures cachedValue == None && nextListener == 0 && trace == []
    {
      this.session := session;
      this.path := path;
      this.encodedLength := encodedLength;
      cachedValue := None;
      nextListener := 0;
      trace := [];
    }

    /** `listener.onPublicationRequest(path, length)`: a fresh completion listener. */
    method RequestPublication(value: T) returns (listener: ListenerId)
      modifies this`nextListener, this`trace
      ensures listener == old(nextListener) && nextListener == old(nextListener) + 1
      ensures trace == old(trace) + [PublicationRequested(path, encodedLength(value), listener)]
    {
      listener := nextListener;
      nextListener := nextListener + 1;
      trace := trace + [PublicationRequested(path, encodedLength(value), listener)];
    }

    /** `set(value, completionListener)`: one update-stream call. */
    method Set(value: T, listener: ListenerId)
      modifies this`trace
      ensures trace == old(trace) + [UpdateSet(value, listener)]
    {
      trace := trace + [UpdateSet(value, listener)];
    }

    /** The completion of a `set`: exactly one notice to its listener. */
    method SetCompleted(listener: ListenerId, failed: bool)
      modifies this`trace
      ensures trace == old(trace) + [CompletionNotice(listener, failed)]
    {
      if failed {
        trace := trace + [PublicationFailed(listener, CommunicationFailure)];
      } else {
        trace := trace + [Published(listener)];
      }
    }

    /** `applyValue`: request, then set. */
    method ApplyValue(value: T)
      modifies this`nextListener, this`trace
      ensures nextListener == old(nextListener) + 1
      ensures trace == old(trace) + [PublicationRequested(path, encodedLength(value), old(nextListener)),
                                     UpdateSet(value, old(nextListener))]
    {
      var listener := RequestPublication(value);
      Set(value, listener);
    }

    /** `publish(value)`, with `state` the session's current state. */
    method Publish(state: State, value: T) returns (threw: bool)
      modifies this
      ensures threw <==> IsClosed(state)
      ensures IsClosed(state) ==>
        cachedValue == old(cachedValue) && nextListener == old(nextListener) && trace == old(trace)
      ensures !IsClosed(state) ==> nextListener == old(nextListener) + 1
      ensures IsRecovering(state) ==>
        && cachedValue == Some(CachedRequest(value, old(nextListener)))
        && trace == old(trace) + [PublicationRequested(path, encodedLength(value), old(nextListener))]
      ensures !IsClosed(state) && !IsRecovering(state) ==>
        && cachedValue == old(cachedValue)
        && trace == old(trace) + [PublicationRequested(path, encodedLength(value), old(nextListener)),
                                  UpdateSet(value, old(nextListener))]
    {
      threw := false;
      if IsClosed(state) {
        threw := true;
      } else if IsRecovering(state) {
        var listener := RequestPublication(value);
        cachedValue := Some(CachedRequest(value, listener));
      } else {
        ApplyValue(value);
      }
    }

    /** `onSessionStateChanged`: a recovering-to-connected change of this session sends the cached request. */
    method OnSessionStateChanged(changed: SessionId, oldState: State, newState: State)
      modifies this
      ensures nextListener == old(nextListener)
      ensures changed == session && IsRecovering(oldState) && IsConnected(newState) ==>
        cachedValue == None &&
        trace == old(trace) +
          (if old(cachedValue).Some? then [UpdateSet(old(cachedValue).value.value, old(cachedValue).value.completionListener)] else [])
      ensures !(changed == session && IsRecovering(oldState) && IsConnected(newState)) ==>
        cachedValue == old(cachedValue) && trace == old(trace)
    {
      if changed == session && IsRecovering(oldState) && IsConnected(newState) {
        var request := cachedValue;
        cachedValue := None;
        if request.Some? {
          Set(request.value.value, request.value.completionListener);
        }
      }
    }
  }

  /** The values of the `UpdateSet` effects of a trace, in order. */
  function SetValues<T>(trace: seq<Effect<T>>): (r: seq<T>)
    ensures |r| <= |trace|
  {
    if trace == [] then []
    else (if trace[0].UpdateSet? then [trace[0].value] else []) + SetValues(trace[1..])
  }

  lemma {:induction false} SetValuesAppend<T>(a: seq<Effect<T>>, b: seq<Effect<T>>)
    ensures SetValues(a + b) == SetValues(a) + SetValues(b)
    decreases |a|
  {
    if a == [] {
      assert a + b == b;
    } else {
      var head := if a[0].UpdateSet? then [a[0].value] else [];
      assert (a + b)[0] == a[0];
      assert (a + b)[1..] == a[1..] + b;
      assert SetValues(a + b) == head + SetValues(a[1..] + b);
      SetValuesAppend(a[1..], b);
      assert SetValues(a) == head + SetValues(a[1..]);
    }
  }

  /**
   * Two values published while recovering, then recovery: the listener hears of both
   * requests with their lengths, but only the second value reaches the update stream,
   * once, carrying the second request's listener; a second recovery sends nothing.
   */
  method LatestCachedRequestWins<T>(id: SessionId, path: string, encodedLength: T -> nat, first: T, second: T)
    returns (requested: seq<nat>, setValues: seq<T>, setsOnSecondRecovery: nat)
    ensures requested == [encodedLength(first), encodedLength(second)]
    ensures setValues == [second]
    ensures setsOnSecondRecovery == 0
  {
    var context := new Context<T>(id, path, encodedLength);
    var threw := context.Publish(RecoveringReconnect, first);
    threw := context.Publish(RecoveringReconnect, second);
    context.OnSessionStateChanged(id, RecoveringReconnect, ConnectedActive);
    var t := context.trace;
    assert t == [PublicationRequested(path, encodedLength(first), 0),
                 PublicationRequested(path, encodedLength(second), 1),
                 UpdateSet(second, 1)];
    requested := [t[0].length, t[1].length];
    SetValuesAppend(t[..2], t[2..]);
    assert t[..2] + t[2..] == t;
    setValues := SetValues(t);
    context.OnSessionStateChanged(id, RecoveringReconnect, ConnectedActive);
    setsOnSecondRecovery := |context.trace| - |t|;
  }
}
