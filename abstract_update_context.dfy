/**
 * The recovery-aware publish path shared by the update contexts (AbstractUpdateContext).
 *
 * A context publishes the values of one topic over one Diffusion session. While the
 * session is recovering, values are not sent but kept in a single-slot cache, each
 * new one replacing the last; when the session moves from recovering to connected,
 * the slot is taken, cleared and its value sent. `sent` records the `publishValue`
 * calls (for binary topics a one-line delegate to the update call).
 */
module AbstractUpdateContext {
  import opened Wrappers
  import opened DiffusionSession

  datatype PublishOutcome = Sent | Cached | IllegalState

  /** What `publish` does in a given session state. */
  function PublishOutcomeIn(state: State): (r: PublishOutcome)
    ensures r == IllegalState <==> IsClosed(state)
    ensures r == Cached <==> IsRecovering(state)
    ensures r == Sent <==> !IsClosed(state) && !IsRecovering(state)
    ensures r == Sent <==> IsConnected(state) || state == Connecting
  {
    ClassificationsDisjoint(state);
    if IsClosed(state) then IllegalState
    else if IsRecovering(state) then Cached
    else Sent
  }

  /** Does a state change of `changed` from `oldState` to `newState` flush the slot of a context on `own`? */
  predicate FlushesCache(own: SessionId, changed: SessionId, oldState: State, newState: State) {
    changed == own && IsRecovering(oldState) && IsConnected(newState)
  }

  class UpdateContext<T> {
    const session: SessionId
    var cachedValue: Option<T>
    /** The values handed to `publishValue`, in order. */
    var sent: seq<T>

    constructor (session: SessionId)
      ensures this.session == session && cachedValue == None && sent == []
    {
      this.session := session;
      cachedValue := None;
      sent := [];
    }

    /** `publish(value)`, with `state` the session's current state. */
    method Publish(state: State, value: T) returns (threw: bool)
      modifies this
      ensures threw <==> PublishOutcomeIn(state) == IllegalState
      ensures PublishOutcomeIn(state) == IllegalState ==> cachedValue == old(cachedValue) && sent == old(sent)
      ensures PublishOutcomeIn(state) == Cached ==> cachedValue == Some(value) && sent == old(sent)
      ensures PublishOutcomeIn(state) == Sent ==> cachedValue == old(cachedValue) && sent == old(sent) + [value]
    {
      threw := false;
      if IsClosed(state) {
        threw := true;
      } else if IsRecovering(state) {
        cachedValue := Some(value);
      } else {
        sent := sent + [value];
      }
    }

    /** `onSessionStateChanged`: a recovering-to-connected change of this session takes, clears and sends the slot. */
    method OnSessionStateChanged(changed: SessionId, oldState: State, newState: State)
      modifies this
      ensures FlushesCache(session, changed, oldState, newState) ==>
        cachedValue == None &&
        sent == old(sent) + (if old(cachedValue).Some? then [old(cachedValue).value] else [])
      ensures !FlushesCache(session, changed, oldState, newState) ==>
        cachedValue == old(cachedValue) && sent == old(sent)
    {
      if changed == session && IsRecovering(oldState) && IsConnected(newState) {
        var value := cachedValue;
        cachedValue := None;
        if value.Some? {
          sent := sent + [value.value];
        }
      }
    }
  }

  /**
   * Last value wins: two values published while recovering, then recovery. Only the
   * second is sent, exactly once; a second recovery right after sends nothing.
   */
  method LastValueWins<T>(id: SessionId, first: T, second: T)
    returns (sentOnRecovery: seq<T>, sentOnSecondRecovery: seq<T>)
    ensures sentOnRecovery == [second]
    ensures sentOnSecondRecovery == []
  {
    var context := new UpdateContext<T>(id);
    var threw := context.Publish(RecoveringReconnect, first);
    threw := context.Publish(RecoveringReconnect, second);
    assert context.sent == [];
    context.OnSessionStateChanged(id, RecoveringReconnect, ConnectedActive);
    sentOnRecovery := context.sent;
    context.OnSessionStateChanged(id, RecoveringReconnect, ConnectedActive);
    sentOnSecondRecovery := context.sent[|sentOnRecovery|..];
  }

  /**
   * A closed session refuses the value; the transitions of another session, or other
   * transitions of this one, leave a cached value in place.
   */
  method ClosedAndForeignTransitions<T>(id: SessionId, other: SessionId, value: T, later: T)
    returns (refused: bool, kept: Option<T>, sent: seq<T>)
    requires other != id
    ensures refused
    ensures kept == Some(value)
    ensures sent == []
  {
    var context := new UpdateContext<T>(id);
    refused := context.Publish(ClosedByServer, later);
    var threw := context.Publish(RecoveringReconnect, value);
    context.OnSessionStateChanged(other, RecoveringReconnect, ConnectedActive);
    context.OnSessionStateChanged(id, Connecting, ConnectedActive);
    context.OnSessionStateChanged(id, RecoveringReconnect, ClosedFailed);
    kept := context.cachedValue;
    sent := context.sent;
  }
}
