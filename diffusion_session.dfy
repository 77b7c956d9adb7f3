/**
 * The states of a Diffusion client session, as the publication code observes them
 * through `Session.State`, and their three classifying predicates.
 */
module DiffusionSession {

  /** A Diffusion session, identified by number. */
  type SessionId = nat

  datatype State =
    | Connecting
    | ConnectedActive
    | RecoveringReconnect
    | ClosedByClient
    | ClosedByServer
    | ClosedFailed

  predicate IsClosed(s: State) {
    s.ClosedByClient? || s.ClosedByServer? || s.ClosedFailed?
  }

  predicate IsRecovering(s: State) {
    s.RecoveringReconnect?
  }

  predicate IsConnected(s: State) {
    s.ConnectedActive?
  }

  /** How many of the three classifications a state falls in. */
  function Classes(s: State): nat {
    (if IsClosed(s) then 1 else 0) + (if IsRecovering(s) then 1 else 0) + (if IsConnected(s) then 1 else 0)
  }

  /** Every state falls in exactly one classification, except CONNECTING, which falls in none. */
  lemma ClassificationsDisjoint(s: State)
    ensures Classes(s) == if s == Connecting then 0 else 1
  {
  }
}
