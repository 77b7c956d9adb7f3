/**
 * The adapter's reconfiguration state machine (InternalRESTAdapter).
 *
 * Each entry point (`onReconfiguration`, `onSessionOpen`, `onSessionLost`,
 * `onSessionClosed`, `close`) is one atomic step. The step is specified by a pure
 * function from the adapter's fields to its new fields plus the outside effects it
 * performs, in order; the class `Adapter` updates its fields in place and appends
 * the same effects to its `trace`.
 *
 * Where the code dereferences a reference that can be null at that point, the step
 * reports `fault` (a NullPointerException): the effects performed before the
 * throw are kept and the remaining assignments do not happen.
 */
module InternalAdapter {
  import opened Wrappers
  import opened Config

  datatype State = Init | ConnectingToDiffusion | Standby | Active | Recovering | Stopping | Stopped

  /** A Diffusion session handed to the adapter once it has opened. */
  type SessionId = nat

  /** Outside effects of the adapter, in the order they happen. */
  datatype Effect =
    | OpenSession(diffusion: Option<DiffusionConfig>, truststore: Option<string>)
    | CloseSession(session: SessionId)
    | CloseServiceManager
    | ReleaseServiceManager
    | CloseEndpointClient
    | CloseMetrics
    | StartMetrics(metrics: MetricsConfig)
    | CreateClients(session: SessionId)
    | RebuildServices(model: Model)
    | Shutdown

  /** The fields an entry point reads and writes. */
  datatype Snapshot = Snapshot(
    state: State,
    current: Option<Model>,
    session: Option<SessionId>,
    hasMetricsProvider: bool)

  const Initial := Snapshot(Init, None, None, false)

  /** The result of one step: new fields, effects in order, and whether it threw. */
  datatype Step = Step(next: Snapshot, effects: seq<Effect>, fault: bool)

  datatype Event =
    | Reconfigured(model: Model)
    | SessionOpened(session: SessionId)
    | SessionLost
    | SessionClosed
    | Closed

  // ---------------------------------------------------------------------------
  // The "what changed" predicates

  /** `hasTruststoreChanged`, as the code writes it. */
  predicate HasTruststoreChanged(current: Model, m: Model) {
    || (current.truststore.None? && m.truststore.Some?)
    || (current.truststore.Some? && Some(current.truststore.value) != m.truststore)
  }

  /** The truststore check is null-safe: it is plain inequality of the two references' values. */
  lemma TruststoreChangedIsInequality(current: Model, m: Model)
    ensures HasTruststoreChanged(current, m) <==> current.truststore != m.truststore
  {
  }

  /** `hasServiceSecurityChanged`: the basic-authentication lists of the two models differ. */
  predicate HasServiceSecurityChanged(current: seq<ServiceConfig>, next: seq<ServiceConfig>) {
    BasicSecurities(current) != BasicSecurities(next)
  }

  /** Which branch of `onReconfiguration` runs; `Throws` where a predicate dereferences null. */
  datatype Branch = Deactivate | Initialise | GoStandby | Reconnect | Activate | MetricsOnly | StoreOnly | Throws

  /** The ordered branch choice of `onReconfiguration`. */
  function ChooseBranch(s: Snapshot, m: Model): Branch {
    if !m.active then Deactivate
    else if s.state == Init then Initialise
    // both `haveMetricsChanged` and `hasTruststoreChanged` read the current model first
    else if s.current.None? then Throws
    else
      var cur := s.current.value;
      if IsNotPolling(m) then GoStandby
      else if HasTruststoreChanged(cur, m) then Reconnect
      // `hasDiffusionChanged` calls equals on the current Diffusion configuration
      else if cur.diffusion.None? then Throws
      else if cur.diffusion != m.diffusion then Reconnect
      else if s.state == Standby then Activate
      else if s.state == Active && cur.services.None? then Throws
      else if s.state == Active &&
        (HasServiceSecurityChanged(cur.services.value, m.services.value) || cur.services != m.services) then Activate
      else if cur.metrics != m.metrics then MetricsOnly
      else StoreOnly
  }

  // ---------------------------------------------------------------------------
  // The private helpers

  /** `shutdownPolling`: closes the service manager and endpoint client only when ACTIVE. */
  function ShutdownPolling(state: State): seq<Effect> {
    if state == Active then [CloseServiceManager, CloseEndpointClient] else []
  }

  /** `shutdownSession`: polling teardown, then closes the session when ACTIVE or STANDBY. */
  function ShutdownSession(s: Snapshot): Step {
    var polling := ShutdownPolling(s.state);
    if s.state == Active || s.state == Standby then
      match s.session
      case None => Step(s, polling, true)
      case Some(id) => Step(s, polling + [CloseSession(id)], false)
    else Step(s, polling, false)
  }

  /** `reconfigureMetricsReporting`: replaces the metrics provider, built from the CURRENT model. */
  function ReconfigureMetrics(s: Snapshot): Step
    requires s.current.Some?
  {
    var close := if s.hasMetricsProvider then [CloseMetrics] else [];
    Step(s.(hasMetricsProvider := true), close + [StartMetrics(s.current.value.metrics)], false)
  }

  /** `if (haveMetricsChanged(model)) reconfigureMetricsReporting();`, run before the model is stored. */
  function MetricsIfChanged(s: Snapshot, m: Model): Step
    requires s.current.Some?
  {
    if s.current.value.metrics != m.metrics then ReconfigureMetrics(s) else Step(s, [], false)
  }

  // ---------------------------------------------------------------------------
  // The entry points

  /** Inactive model: shut the session down; defer to STOPPING while connecting, else STOPPED and shutdown. */
  function DeactivateStep(s: Snapshot): Step {
    var down := ShutdownSession(s);
    if down.fault then down
    else if s.state == ConnectingToDiffusion then Step(s.(state := Stopping), down.effects, false)
    else Step(s.(state := Stopped), down.effects + [Shutdown], false)
  }

  /** First active model: store it, start metrics from it, connect. */
  function InitialiseStep(s: Snapshot, m: Model): Step {
    var metrics := ReconfigureMetrics(s.(current := Some(m)));
    Step(metrics.next.(state := ConnectingToDiffusion), metrics.effects + [OpenSession(m.diffusion, m.truststore)], false)
  }

  /** Nothing to poll: metrics (if changed), store the model, stop polling, STANDBY. */
  function StandbyStep(s: Snapshot, m: Model): Step
    requires s.current.Some?
  {
    var metrics := MetricsIfChanged(s, m);
    Step(metrics.next.(current := Some(m), state := Standby), metrics.effects + ShutdownPolling(s.state), false)
  }

  /** Truststore or Diffusion changed: metrics (if changed), store the model, drop the session, reconnect. */
  function ReconnectStep(s: Snapshot, m: Model): Step
    requires s.current.Some?
  {
    var metrics := MetricsIfChanged(s, m);
    var stored := metrics.next.(current := Some(m));
    var down := ShutdownSession(stored);
    if down.fault then Step(stored, metrics.effects + down.effects, true)
    else Step(stored.(state := ConnectingToDiffusion),
              metrics.effects + down.effects + [OpenSession(m.diffusion, m.truststore)], false)
  }

  /** Start or restart polling on the open session: metrics (if changed), store the model, ACTIVE, rebuild services. */
  function ActivateStep(s: Snapshot, m: Model): Step
    requires s.current.Some?
  {
    var metrics := MetricsIfChanged(s, m);
    Step(metrics.next.(current := Some(m), state := Active), metrics.effects + [RebuildServices(m)], false)
  }

  /** `onReconfiguration(model)`. */
  function Reconfigure(s: Snapshot, m: Model): Step {
    match ChooseBranch(s, m)
    case Deactivate => DeactivateStep(s)
    case Initialise => InitialiseStep(s, m)
    case GoStandby => StandbyStep(s, m)
    case Reconnect => ReconnectStep(s, m)
    case Activate => ActivateStep(s, m)
    case MetricsOnly => ReconfigureMetrics(s.(current := Some(m)))
    case StoreOnly => Step(s.(current := Some(m)), [], false)
    case Throws => Step(s, [], true)
  }

  /** `onSessionOpen(session)`. */
  function SessionOpen(s: Snapshot, id: SessionId): Step {
    if s.state == Stopping then Step(s.(state := Stopped), [CloseSession(id), Shutdown], false)
    else if s.current.None? then Step(s, [], true)
    else if IsNotPolling(s.current.value) then
      Step(s.(session := Some(id), state := Standby), [CreateClients(id)], false)
    else
      Step(s.(session := Some(id), state := Active), [CreateClients(id), RebuildServices(s.current.value)], false)
  }

  /** `onSessionLost`: tears down polling and the session, then RECOVERING. */
  function SessionLostStep(s: Snapshot): Step {
    var down := ShutdownSession(s);
    if down.fault then down else Step(s.(state := Recovering), down.effects, false)
  }

  /** `onSessionClosed`: forgets the session, then RECOVERING. */
  function SessionClosedStep(s: Snapshot): Step {
    Step(s.(session := None, state := Recovering), [], false)
  }

  /** The end of `close`: defer to STOPPING while connecting, otherwise STOPPED and shutdown. */
  function FinishClose(s: Snapshot, effects: seq<Effect>): Step {
    if s.state == ConnectingToDiffusion then Step(s.(state := Stopping), effects, false)
    else Step(s.(state := Stopped), effects + [Shutdown], false)
  }

  /** `close()`. */
  function CloseStep(s: Snapshot): Step {
    if s.state == Stopped || s.state == Stopping then Step(s, [], false)
    else
      var release := if s.state == Active then [ReleaseServiceManager, CloseEndpointClient] else [];
      if s.state == Active || s.state == Standby then
        var metrics := if s.hasMetricsProvider then [CloseMetrics] else [];
        match s.session
        case None => Step(s, release + metrics, true)
        case Some(id) => FinishClose(s, release + metrics + [CloseSession(id)])
      else FinishClose(s, release)
  }

  /** One entry point applied to the fields. */
  function Apply(s: Snapshot, e: Event): Step {
    match e
    case Reconfigured(m) => Reconfigure(s, m)
    case SessionOpened(id) => SessionOpen(s, id)
    case SessionLost => SessionLostStep(s)
    case SessionClosed => SessionClosedStep(s)
    case Closed => CloseStep(s)
  }

  // ---------------------------------------------------------------------------
  // Properties of the entry points

  /** An inactive model: STOPPING while connecting, otherwise STOPPED with shutdown; the model is not stored. */
  lemma InactiveModelStops(s: Snapshot, m: Model)
    requires !m.active
    ensures var st := Reconfigure(s, m);
      && (st.fault <==> (s.state == Active || s.state == Standby) && s.session.None?)
      && st.next.current == s.current
      && (!st.fault ==> st.next.state == (if s.state == ConnectingToDiffusion then Stopping else Stopped))
      && (!st.fault ==> (Shutdown in st.effects <==> s.state != ConnectingToDiffusion))
      && ((s.state == Active || s.state == Standby) && s.session.Some? ==> CloseSession(s.session.value) in st.effects)
  {
  }

  /** From INIT an active model is stored, metrics are started from it, and the adapter connects. */
  lemma InitialModelConnects(s: Snapshot, m: Model)
    requires m.active && s.state == Init
    ensures var st := Reconfigure(s, m);
      && !st.fault
      && st.next.state == ConnectingToDiffusion
      && st.next.current == Some(m)
      && st.next.hasMetricsProvider
      && StartMetrics(m.metrics) in st.effects
      && st.effects[|st.effects| - 1] == OpenSession(m.diffusion, m.truststore)
  {
  }

  /** A model with nothing to poll leads to STANDBY; polling is closed only if ACTIVE; the session stays. */
  lemma NotPollingGoesStandby(s: Snapshot, m: Model)
    requires m.active && s.state != Init && s.current.Some? && IsNotPolling(m)
    ensures var st := Reconfigure(s, m);
      && !st.fault
      && st.next.state == Standby
      && st.next.current == Some(m)
      && st.next.session == s.session
      && (CloseServiceManager in st.effects <==> s.state == Active)
      && (CloseEndpointClient in st.effects <==> s.state == Active)
      && forall e :: e in st.effects ==> !e.CloseSession? && !e.OpenSession?
  {
  }

  /**
   * A changed truststore, or a changed Diffusion configuration, closes the session when
   * ACTIVE or STANDBY and reconnects with the new settings.
   */
  lemma ChangedConnectionReconnects(s: Snapshot, m: Model)
    requires m.active && s.state != Init && s.current.Some? && !IsNotPolling(m)
    requires s.current.value.truststore != m.truststore ||
      (s.current.value.diffusion.Some? && s.current.value.diffusion != m.diffusion)
    ensures var st := Reconfigure(s, m);
      && (st.fault <==> (s.state == Active || s.state == Standby) && s.session.None?)
      && st.next.current == Some(m)
      && (!st.fault ==> st.next.state == ConnectingToDiffusion)
      && (!st.fault ==> st.effects[|st.effects| - 1] == OpenSession(m.diffusion, m.truststore))
      && ((s.state == Active || s.state == Standby) && s.session.Some? ==> CloseSession(s.session.value) in st.effects)
      && (s.state != Active && s.state != Standby ==> forall e :: e in st.effects ==> !e.CloseSession?)
  {
    TruststoreChangedIsInequality(s.current.value, m);
  }

  /** `hasDiffusionChanged` throws when the current model has no Diffusion configuration; nothing changes. */
  lemma MissingDiffusionThrows(s: Snapshot, m: Model)
    requires m.active && s.state != Init && s.current.Some? && !IsNotPolling(m)
    requires s.current.value.truststore == m.truststore && s.current.value.diffusion.None?
    ensures Reconfigure(s, m) == Step(s, [], true)
  {
    TruststoreChangedIsInequality(s.current.value, m);
  }

  /**
   * With the connection settings unchanged: STANDBY, or ACTIVE with changed services or
   * basic-authentication list, moves to ACTIVE and rebuilds the services; otherwise the state
   * stays and no service is rebuilt.
   */
  lemma ActivatesOnStandbyOrServiceChange(s: Snapshot, m: Model)
    requires m.active && s.state != Init && s.current.Some? && !IsNotPolling(m)
    requires s.current.value.truststore == m.truststore
    requires s.current.value.diffusion.Some? && s.current.value.diffusion == m.diffusion
    ensures var st := Reconfigure(s, m); var cur := s.current.value;
      && (st.fault <==> s.state == Active && cur.services.None?)
      && (!st.fault ==> st.next.current == Some(m))
      && (s.state == Standby || (s.state == Active && cur.services.Some? &&
            (BasicSecurities(cur.services.value) != BasicSecurities(m.services.value) || cur.services != m.services))
          ==> st.next.state == Active && st.effects[|st.effects| - 1] == RebuildServices(m))
      && (s.state != Standby && s.state != Active ==>
            st.next.state == s.state && forall e :: e in st.effects ==> !e.RebuildServices?)
      && (s.state == Active && cur.services == m.services ==>
            st.next.state == Active && forall e :: e in st.effects ==> !e.RebuildServices?)
  {
    TruststoreChangedIsInequality(s.current.value, m);
  }

  /** Every active model that does not throw becomes the current model; an inactive one never does. */
  lemma ModelStoredUnlessInactive(s: Snapshot, m: Model)
    ensures var st := Reconfigure(s, m);
      !st.fault ==> st.next.current == (if m.active then Some(m) else s.current)
  {
  }

  /**
   * In the STANDBY, reconnect and activate branches the metrics provider is rebuilt before the
   * new model is stored, so a changed metrics configuration restarts metrics from the OLD one.
   */
  lemma MetricsRestartUsesPreviousModel(s: Snapshot, m: Model)
    requires s.current.Some? && s.current.value.metrics != m.metrics
    requires ChooseBranch(s, m) in {GoStandby, Reconnect, Activate}
    ensures StartMetrics(s.current.value.metrics) in Reconfigure(s, m).effects
    ensures StartMetrics(m.metrics) !in Reconfigure(s, m).effects
  {
  }

  /** A metrics-only change restarts metrics from the new model and keeps the state. */
  lemma MetricsOnlyKeepsState(s: Snapshot, m: Model)
    requires ChooseBranch(s, m) == MetricsOnly
    ensures var st := Reconfigure(s, m);
      && !st.fault && st.next.state == s.state && st.next.current == Some(m)
      && st.effects[|st.effects| - 1] == StartMetrics(m.metrics)
  {
  }

  /**
   * `onSessionOpen`: when STOPPING, the new session is closed and the adapter shuts down;
   * otherwise it keeps the session and goes to STANDBY or ACTIVE as the current model polls.
   */
  lemma SessionOpenOutcome(s: Snapshot, id: SessionId)
    ensures var st := SessionOpen(s, id);
      && (st.fault <==> s.state != Stopping && s.current.None?)
      && (s.state == Stopping ==> st.next.state == Stopped && st.effects == [CloseSession(id), Shutdown])
      && (s.state != Stopping && s.current.Some? ==>
            && st.next.session == Some(id)
            && CreateClients(id) in st.effects
            && (IsNotPolling(s.current.value) ==> st.next.state == Standby && RebuildServices(s.current.value) !in st.effects)
            && (!IsNotPolling(s.current.value) ==> st.next.state == Active && RebuildServices(s.current.value) in st.effects))
  {
  }

  /** A lost session tears polling and the session down and moves to RECOVERING. */
  lemma SessionLostRecovers(s: Snapshot)
    ensures var st := SessionLostStep(s);
      && (st.fault <==> (s.state == Active || s.state == Standby) && s.session.None?)
      && (!st.fault ==> st.next == s.(state := Recovering))
      && (CloseServiceManager in st.effects <==> s.state == Active)
  {
  }

  /** A closed session is forgotten and the adapter moves to RECOVERING, with no effect. */
  lemma SessionClosedForgets(s: Snapshot)
    ensures var st := SessionClosedStep(s);
      !st.fault && st.next.session.None? && st.next.state == Recovering && st.effects == []
      && st.next.current == s.current
  {
  }

  /** `close`: no-op when stopping or stopped; STOPPING from connecting; otherwise STOPPED. */
  lemma CloseOutcome(s: Snapshot)
    ensures var st := CloseStep(s);
      && (s.state == Stopped || s.state == Stopping ==> st == Step(s, [], false))
      && (st.fault <==> (s.state == Active || s.state == Standby) && s.session.None?)
      && (s.state == ConnectingToDiffusion ==> st.next.state == Stopping && Shutdown !in st.effects)
      && (s.state != Stopped && s.state != Stopping && s.state != ConnectingToDiffusion && !st.fault ==>
            st.next.state == Stopped && st.effects[|st.effects| - 1] == Shutdown)
  {
  }

  /** A `close` that reaches STOPPED runs the shutdown handler exactly once. */
  lemma CloseShutsDownOnce(s: Snapshot)
    ensures var st := CloseStep(s);
      multiset(st.effects)[Shutdown] == (if !st.fault && st.next.state == Stopped && s.state != Stopped then 1 else 0)
  {
    if s.state != Stopped && s.state != Stopping {
      var release: seq<Effect> := if s.state == Active then [ReleaseServiceManager, CloseEndpointClient] else [];
      assert multiset(release)[Shutdown] == 0;
      if s.state == Active || s.state == Standby {
        var metrics: seq<Effect> := if s.hasMetricsProvider then [CloseMetrics] else [];
        assert multiset(metrics)[Shutdown] == 0;
        var pre := release + metrics;
        assert multiset(pre)[Shutdown] == 0;
        if s.session.None? {
          assert CloseStep(s) == Step(s, pre, true);
        } else {
          var effects := pre + [CloseSession(s.session.value)];
          assert multiset(effects)[Shutdown] == 0;
          assert CloseStep(s) == FinishClose(s, effects);
          FinishCloseCount(s, effects);
        }
      } else {
        assert CloseStep(s) == FinishClose(s, release);
        FinishCloseCount(s, release);
      }
    }
  }

  /** Effects without a shutdown, finished by `close`: one shutdown exactly when STOPPED. */
  lemma FinishCloseCount(s: Snapshot, effects: seq<Effect>)
    requires s.state != Stopped
    requires multiset(effects)[Shutdown] == 0
    ensures var st := FinishClose(s, effects);
      !st.fault && multiset(st.effects)[Shutdown] == (if st.next.state == Stopped then 1 else 0)
  {
  }

  /** The shutdown handler only ever runs in a step that leaves the adapter STOPPED. */
  lemma ShutdownOnlyWhenStopped(s: Snapshot, e: Event)
    ensures Shutdown in Apply(s, e).effects ==> Apply(s, e).next.state == Stopped
  {
    match e
    case Reconfigured(m) => ReconfigureShutdownOnlyWhenStopped(s, m);
    case SessionOpened(id) =>
    case SessionLost => ShutdownSessionNoShutdown(s);
    case SessionClosed =>
    case Closed =>
      CloseShutsDownOnce(s);
      if Shutdown in CloseStep(s).effects {
        assert multiset(CloseStep(s).effects)[Shutdown] > 0;
      }
  }

  /** Tearing down polling and the session never runs the shutdown handler. */
  lemma ShutdownSessionNoShutdown(s: Snapshot)
    ensures Shutdown !in ShutdownSession(s).effects
  {
    assert Shutdown !in ShutdownPolling(s.state);
  }

  lemma ReconfigureShutdownOnlyWhenStopped(s: Snapshot, m: Model)
    ensures Shutdown in Reconfigure(s, m).effects ==> Reconfigure(s, m).next.state == Stopped
  {
    match ChooseBranch(s, m)
    case Deactivate =>
      assert Reconfigure(s, m) == DeactivateStep(s);
      ShutdownSessionNoShutdown(s);
    case Initialise =>
      assert Reconfigure(s, m) == InitialiseStep(s, m);
    case GoStandby =>
      assert Reconfigure(s, m) == StandbyStep(s, m);
      MetricsNoShutdown(s, m);
      assert Shutdown !in ShutdownPolling(s.state);
    case Reconnect =>
      assert Reconfigure(s, m) == ReconnectStep(s, m);
      MetricsNoShutdown(s, m);
      ShutdownSessionNoShutdown(MetricsIfChanged(s, m).next.(current := Some(m)));
    case Activate =>
      assert Reconfigure(s, m) == ActivateStep(s, m);
      MetricsNoShutdown(s, m);
    case MetricsOnly =>
    case StoreOnly =>
    case Throws =>
  }

  /** Rebuilding the metrics provider never runs the shutdown handler. */
  lemma MetricsNoShutdown(s: Snapshot, m: Model)
    requires s.current.Some?
    ensures Shutdown !in MetricsIfChanged(s, m).effects
  {
  }

  /** The effects of `n` calls of `close` in a row (a throwing call ends the sequence). */
  function CloseTimes(s: Snapshot, n: nat): seq<Effect>
    decreases n
  {
    if n == 0 then []
    else
      var st := CloseStep(s);
      if st.fault then st.effects else st.effects + CloseTimes(st.next, n - 1)
  }

  lemma {:induction false} ClosedAdapterStaysQuiet(s: Snapshot, n: nat)
    requires s.state == Stopped || s.state == Stopping
    ensures CloseTimes(s, n) == []
    decreases n
  {
    if n > 0 {
      ClosedAdapterStaysQuiet(s, n - 1);
    }
  }

  /** However often `close` is called, the shutdown handler runs at most once. */
  lemma {:induction false} RepeatedCloseShutsDownOnce(s: Snapshot, n: nat)
    ensures multiset(CloseTimes(s, n))[Shutdown] <= 1
  {
    if n > 0 {
      var st := CloseStep(s);
      CloseShutsDownOnce(s);
      if !st.fault {
        CloseOutcome(s);
        assert st.next.state == Stopped || st.next.state == Stopping;
        ClosedAdapterStaysQuiet(st.next, n - 1);
        assert CloseTimes(s, n) == st.effects + [];
      } else {
        assert CloseTimes(s, n) == st.effects;
      }
      assert st.effects + [] == st.effects;
    }
  }

  // ---------------------------------------------------------------------------
  // The adapter object

  class Adapter {
    var state: State
    var currentModel: Option<Model>
    var diffusionSession: Option<SessionId>
    var hasMetricsProvider: bool
    /** Every outside effect performed so far, in order. */
    var trace: seq<Effect>

    function Snap(): Snapshot
      reads this
    {
      Snapshot(state, currentModel, diffusionSession, hasMetricsProvider)
    }

    constructor ()
      ensures Snap() == Initial && trace == []
    {
      state := Init;
      currentModel := None;
      diffusionSession := None;
      hasMetricsProvider := false;
      trace := [];
    }

    method ShutdownPollingNow()
      modifies this`trace
      ensures trace == old(trace) + ShutdownPolling(state)
    {
      if state == Active {
        trace := trace + [CloseServiceManager];
        trace := trace + [CloseEndpointClient];
      }
    }

    method ShutdownSessionNow() returns (threw: bool)
      modifies this`trace
      ensures trace == old(trace) + ShutdownSession(Snap()).effects
      ensures threw == ShutdownSession(Snap()).fault
    {
      ShutdownPollingNow();
      threw := false;
      if state == Active || state == Standby {
        if diffusionSession.None? {
          threw := true;
          return;
        }
        trace := trace + [CloseSession(diffusionSession.value)];
      }
    }

    method ConnectSession(m: Model)
      modifies this`state, this`trace
      ensures state == ConnectingToDiffusion
      ensures trace == old(trace) + [OpenSession(m.diffusion, m.truststore)]
    {
      state := ConnectingToDiffusion;
      trace := trace + [OpenSession(m.diffusion, m.truststore)];
    }

    method ReconfigureMetricsReporting()
      requires currentModel.Some?
      modifies this`hasMetricsProvider, this`trace
      ensures Snap() == ReconfigureMetrics(old(Snap())).next
      ensures trace == old(trace) + ReconfigureMetrics(old(Snap())).effects
    {
      if hasMetricsProvider {
        trace := trace + [CloseMetrics];
      }
      hasMetricsProvider := true;
      trace := trace + [StartMetrics(currentModel.value.metrics)];
    }

    method ReconfigureServiceManager()
      requires currentModel.Some?
      modifies this`trace
      ensures trace == old(trace) + [RebuildServices(currentModel.value)]
    {
      trace := trace + [RebuildServices(currentModel.value)];
    }

    method MetricsIfChangedNow(m: Model)
      requires currentModel.Some?
      modifies this`hasMetricsProvider, this`trace
      ensures Snap() == MetricsIfChanged(old(Snap()), m).next
      ensures trace == old(trace) + MetricsIfChanged(old(Snap()), m).effects
    {
      if currentModel.value.metrics != m.metrics {
        ReconfigureMetricsReporting();
      }
    }

    method DeactivateNow() returns (threw: bool)
      modifies this`state, this`trace
      ensures Snap() == DeactivateStep(old(Snap())).next
      ensures trace == old(trace) + DeactivateStep(old(Snap())).effects
      ensures threw == DeactivateStep(old(Snap())).fault
    {
      threw := ShutdownSessionNow();
      if threw {
        return;
      }
      if state == ConnectingToDiffusion {
        state := Stopping;
      } else {
        state := Stopped;
        trace := trace + [Shutdown];
      }
    }

    method GoStandbyNow(m: Model)
      requires currentModel.Some?
      modifies this
      ensures Snap() == StandbyStep(old(Snap()), m).next
      ensures trace == old(trace) + StandbyStep(old(Snap()), m).effects
    {
      MetricsIfChangedNow(m);
      currentModel := Some(m);
      ShutdownPollingNow();
      state := Standby;
    }

    method ReconnectNow(m: Model) returns (threw: bool)
      requires currentModel.Some?
      modifies this
      ensures Snap() == ReconnectStep(old(Snap()), m).next
      ensures trace == old(trace) + ReconnectStep(old(Snap()), m).effects
      ensures threw == ReconnectStep(old(Snap()), m).fault
    {
      ghost var s0, t0 := Snap(), trace;
      ghost var metrics := MetricsIfChanged(s0, m);
      MetricsIfChangedNow(m);
      currentModel := Some(m);
      ghost var stored := metrics.next.(current := Some(m));
      ghost var down := ShutdownSession(stored);
      assert Snap() == stored;
      threw := ShutdownSessionNow();
      assert trace == t0 + (metrics.effects + down.effects);
      if threw {
        assert ReconnectStep(s0, m) == Step(stored, metrics.effects + down.effects, true);
        return;
      }
      ConnectSession(m);
      assert trace == t0 + (metrics.effects + down.effects + [OpenSession(m.diffusion, m.truststore)]);
      assert ReconnectStep(s0, m) == Step(stored.(state := ConnectingToDiffusion),
        metrics.effects + down.effects + [OpenSession(m.diffusion, m.truststore)], false);
    }

    method ActivateNow(m: Model)
      requires currentModel.Some?
      modifies this
      ensures Snap() == ActivateStep(old(Snap()), m).next
      ensures trace == old(trace) + ActivateStep(old(Snap()), m).effects
    {
      MetricsIfChangedNow(m);
      currentModel := Some(m);
      state := Active;
      ReconfigureServiceManager();
    }

    /** `onReconfiguration(model)`. */
    method OnReconfiguration(m: Model) returns (threw: bool)
      modifies this
      ensures Snap() == Reconfigure(old(Snap()), m).next
      ensures trace == old(trace) + Reconfigure(old(Snap()), m).effects
      ensures threw == Reconfigure(old(Snap()), m).fault
    {
      threw := false;
      match ChooseBranch(Snap(), m)
      case Deactivate =>
        threw := DeactivateNow();
      case Initialise =>
        currentModel := Some(m);
        ReconfigureMetricsReporting();
        ConnectSession(m);
      case GoStandby =>
        GoStandbyNow(m);
      case Reconnect =>
        threw := ReconnectNow(m);
      case Activate =>
        ActivateNow(m);
      case MetricsOnly =>
        currentModel := Some(m);
        ReconfigureMetricsReporting();
      case StoreOnly =>
        currentModel := Some(m);
      case Throws =>
        threw := true;
    }

    /** `onSessionOpen(session)`. */
    method OnSessionOpen(id: SessionId) returns (threw: bool)
      modifies this
      ensures Snap() == SessionOpen(old(Snap()), id).next
      ensures trace == old(trace) + SessionOpen(old(Snap()), id).effects
      ensures threw == SessionOpen(old(Snap()), id).fault
    {
      threw := false;
      if state == Stopping {
        state := Stopped;
        trace := trace + [CloseSession(id)];
        trace := trace + [Shutdown];
      } else if currentModel.None? {
        threw := true;
      } else if IsNotPolling(currentModel.value) {
        diffusionSession := Some(id);
        trace := trace + [CreateClients(id)];
        state := Standby;
      } else {
        diffusionSession := Some(id);
        trace := trace + [CreateClients(id)];
        ReconfigureServiceManager();
        state := Active;
      }
    }

    /** `onSessionLost`. */
    method OnSessionLost() returns (threw: bool)
      modifies this
      ensures Snap() == SessionLostStep(old(Snap())).next
      ensures trace == old(trace) + SessionLostStep(old(Snap())).effects
      ensures threw == SessionLostStep(old(Snap())).fault
    {
      threw := ShutdownSessionNow();
      if !threw {
        state := Recovering;
      }
    }

    /** `onSessionClosed`. */
    method OnSessionClosed()
      modifies this
      ensures Snap() == SessionClosedStep(old(Snap())).next
      ensures trace == old(trace)
    {
      diffusionSession := None;
      state := Recovering;
    }

    /** `close()`. */
    method Close() returns (threw: bool)
      modifies this
      ensures Snap() == CloseStep(old(Snap())).next
      ensures trace == old(trace) + CloseStep(old(Snap())).effects
      ensures threw == CloseStep(old(Snap())).fault
    {
      threw := false;
      if state == Stopped || state == Stopping {
        return;
      }
      if state == Active {
        trace := trace + [ReleaseServiceManager];
        trace := trace + [CloseEndpointClient];
      }
      if state == Active || state == Standby {
        if hasMetricsProvider {
          trace := trace + [CloseMetrics];
        }
        if diffusionSession.None? {
          threw := true;
          return;
        }
        trace := trace + [CloseSession(diffusionSession.value)];
      }
      if state == ConnectingToDiffusion {
        state := Stopping;
      } else {
        state := Stopped;
        trace := trace + [Shutdown];
      }
    }
  }
}
