/**
 * The older, container-based adapter (RESTAdapter).
 *
 * The adapter keeps a tree of four dependency-injection containers: top level, HTTP
 * (child of top level), Diffusion (child of HTTP) and services (child of Diffusion).
 * `reconfigure` picks exactly one action by an ordered chain of checks and swaps the
 * affected sub-tree: it creates and starts the new containers before it disposes of
 * the old one. Containers are identified by number; creating one (which also
 * registers it with its parent) takes the next unused number.
 */
module RestAdapter {
  import opened Wrappers
  import opened Config

  type ContainerId = nat

  datatype ContainerKind = TopLevel | Http | Diffusion | Services

  /** Outside effects, in the order they happen. */
  datatype Effect =
    | Created(id: ContainerId, kind: ContainerKind, parent: Option<ContainerId>)
    | Started(id: ContainerId)
    | Disposed(id: ContainerId)
    | ChildRemoved(owner: ContainerId, child: ContainerId)
    | ShutdownHandler

  /** The adapter's fields. */
  datatype Fields = Fields(
    top: Option<ContainerId>,
    http: Option<ContainerId>,
    diffusion: Option<ContainerId>,
    services: Option<ContainerId>,
    current: Option<Model>,
    nextId: nat)

  const Initial := Fields(None, None, None, None, None, 0)

  datatype Step = Step(next: Fields, effects: seq<Effect>, fault: bool)

  /**
   * What the fields always satisfy: the four containers are all present or all absent,
   * live containers carry numbers already handed out, and live containers were built
   * for a current model that polls.
   */
  predicate ValidFields(f: Fields) {
    && (f.top.Some? <==> f.http.Some?)
    && (f.http.Some? <==> f.diffusion.Some?)
    && (f.diffusion.Some? <==> f.services.Some?)
    && (f.top.Some? ==> f.top.value < f.nextId && f.http.value < f.nextId &&
                        f.diffusion.value < f.nextId && f.services.value < f.nextId)
    && (f.top.Some? ==> f.current.Some? && !IsNotPolling(f.current.value))
  }

  // ---------------------------------------------------------------------------
  // The checks of `reconfigure`

  /** `wasInactive`: some container below the top level is missing. */
  predicate WasInactive(f: Fields) {
    f.http.None? || f.diffusion.None? || f.services.None?
  }

  /**
   * `hasTruststoreChanged`, as the code writes it: `None` where the current truststore
   * is dereferenced while null (a NullPointerException).
   */
  function TruststoreChanged(current: Model, m: Model): (r: Option<bool>)
    ensures r.None? <==> current.truststore.None? && m.truststore.None?
    ensures r.Some? ==> (r.value <==> current.truststore != m.truststore)
  {
    if current.truststore.None? && m.truststore.Some? then Some(true)
    else if current.truststore.None? then None
    else Some(current.truststore != m.truststore)
  }

  /** `hasSecurityChanged`: `None` where a service list is null. */
  function SecurityChanged(current: Model, m: Model): Option<bool> {
    if current.services.None? || m.services.None? then None
    else Some(BasicSecurities(current.services.value) != BasicSecurities(m.services.value))
  }

  /** `hasDiffusionChanged`: null-safe on the current configuration. */
  predicate DiffusionChanged(current: Model, m: Model) {
    current.diffusion.None? || current.diffusion != m.diffusion
  }

  /** `haveServicesChanged`, as written: it reads the NEW model's services twice. */
  predicate HaveServicesChanged(m: Model) {
    var newServices := m.services;
    var oldServices := m.services;
    oldServices.None? || oldServices == newServices
  }

  /** The list is compared with itself, so the check holds for every model. */
  lemma HaveServicesChangedAlwaysHolds(m: Model)
    ensures HaveServicesChanged(m)
  {
  }

  datatype Action =
    | RunShutdown
    | InitialConfiguration
    | SwitchToInactive
    | ReplaceAll
    | ReplaceSecurity
    | ReplacePollingAndPublishing
    | ReplaceServices
    | KeepComponents
    | NullPointer

  /** The ordered branch chain of `reconfigure`. */
  function ChooseAction(f: Fields, m: Model): Action {
    if !m.active then RunShutdown
    else if f.current.None? then InitialConfiguration
    else if IsNotPolling(m) then SwitchToInactive
    else if WasInactive(f) then ReplaceAll
    else
      var cur := f.current.value;
      match TruststoreChanged(cur, m)
      case None => NullPointer
      case Some(true) => ReplaceSecurity
      case Some(false) =>
        match SecurityChanged(cur, m)
        case None => NullPointer
        case Some(true) => ReplaceSecurity
        case Some(false) =>
          if DiffusionChanged(cur, m) then ReplacePollingAndPublishing
          else if HaveServicesChanged(m) then ReplaceServices
          else KeepComponents
  }

  // ---------------------------------------------------------------------------
  // The swaps

  /** A fresh tree below `parent`: the kinds from `kind` down, numbered from `nextId`. */
  function Creations(kinds: seq<ContainerKind>, parent: Option<ContainerId>, nextId: nat): (r: seq<Effect>)
    ensures |r| == |kinds|
    ensures forall i :: 0 <= i < |r| ==> r[i] == Created(nextId + i, kinds[i], if i == 0 then parent else Some(nextId + i - 1))
    decreases |kinds|
  {
    if kinds == [] then []
    else [Created(nextId, kinds[0], parent)] + Creations(kinds[1..], Some(nextId), nextId + 1)
  }

  /** Disposal of a replaced container and its removal from its parent. */
  function Retire(previous: Option<ContainerId>, parent: Option<ContainerId>): seq<Effect> {
    match previous
    case None => []
    case Some(id) => if parent.Some? then [Disposed(id), ChildRemoved(parent.value, id)] else [Disposed(id)]
  }

  /** `initialConfiguration`: builds and starts a tree only for a model that polls. */
  function InitialStep(f: Fields, m: Model): Step {
    if IsNotPolling(m) then Step(f, [], false)
    else
      var n := f.nextId;
      Step(f.(top := Some(n), http := Some(n + 1), diffusion := Some(n + 2), services := Some(n + 3), nextId := n + 4),
           Creations([TopLevel, Http, Diffusion, Services], None, n) + [Started(n)], false)
  }

  /** `switchToInactiveComponents`: disposes of the top level (and so the tree) and forgets all four. */
  function SwitchToInactiveStep(f: Fields): Step {
    if f.top.None? then Step(f, [], false)
    else Step(f.(top := None, http := None, diffusion := None, services := None), [Disposed(f.top.value)], false)
  }

  /** `reconfigureAll`: a new tree, started, then the old top level disposed of. */
  function ReplaceAllStep(f: Fields, m: Model): Step {
    var n := f.nextId;
    Step(f.(top := Some(n), http := Some(n + 1), diffusion := Some(n + 2), services := Some(n + 3), nextId := n + 4),
         Creations([TopLevel, Http, Diffusion, Services], None, n) + [Started(n)] + Retire(f.top, None), false)
  }

  /** `reconfigureSecurity`: new HTTP, Diffusion and services containers under the same top level. */
  function ReplaceSecurityStep(f: Fields): Step
    requires f.top.Some?
  {
    var n := f.nextId;
    Step(f.(http := Some(n), diffusion := Some(n + 1), services := Some(n + 2), nextId := n + 3),
         Creations([Http, Diffusion, Services], f.top, n) + [Started(n)] + Retire(f.http, f.top), false)
  }

  /** `reconfigurePollingAndPublishing`: new Diffusion and services containers under the same HTTP one. */
  function ReplacePollingStep(f: Fields): Step
    requires f.http.Some?
  {
    var n := f.nextId;
    Step(f.(diffusion := Some(n), services := Some(n + 1), nextId := n + 2),
         Creations([Diffusion, Services], f.http, n) + [Started(n)] + Retire(f.diffusion, f.http), false)
  }

  /** `reconfigureServices`: a new services container under the same Diffusion one. */
  function ReplaceServicesStep(f: Fields): Step
    requires f.diffusion.Some?
  {
    var n := f.nextId;
    Step(f.(services := Some(n), nextId := n + 1),
         Creations([Services], f.diffusion, n) + [Started(n)] + Retire(f.services, f.diffusion), false)
  }

  /** `close`: disposes of the top level unless inactive; the fields are left as they are. */
  function CloseEffects(f: Fields): seq<Effect>
    requires ValidFields(f)
  {
    if !WasInactive(f) then [Disposed(f.top.value)] else []
  }

  /** `reconfigure(model)`. */
  function ReconfigureStep(f: Fields, m: Model): Step
    requires ValidFields(f)
  {
    var action := ChooseAction(f, m);
    if action == RunShutdown then Step(f, CloseEffects(f) + [ShutdownHandler], false)
    else if action == NullPointer then Step(f, [], true)
    else
      var st :=
        match action
        case InitialConfiguration => InitialStep(f, m)
        case SwitchToInactive => SwitchToInactiveStep(f)
        case ReplaceAll => ReplaceAllStep(f, m)
        case ReplaceSecurity => ReplaceSecurityStep(f)
        case ReplacePollingAndPublishing => ReplacePollingStep(f)
        case ReplaceServices => ReplaceServicesStep(f)
        case _ => Step(f, [], false);
      Step(st.next.(current := Some(m)), st.effects, false)
  }

  // ---------------------------------------------------------------------------
  // Properties

  /** Every step keeps the container invariant. */
  lemma ReconfigureKeepsValid(f: Fields, m: Model)
    requires ValidFields(f)
    ensures ValidFields(ReconfigureStep(f, m).next)
  {
  }

  /** An inactive model runs the shutdown task and leaves every field as it was. */
  lemma InactiveModelShutsDown(f: Fields, m: Model)
    requires ValidFields(f) && !m.active
    ensures var st := ReconfigureStep(f, m);
      && !st.fault && st.next == f
      && st.effects[|st.effects| - 1] == ShutdownHandler
      && (f.top.Some? ==> st.effects == [Disposed(f.top.value), ShutdownHandler])
      && (f.top.None? ==> st.effects == [ShutdownHandler])
  {
  }

  /** Every call that neither shuts down nor throws stores the new model. */
  lemma ModelStoredUnlessShutdown(f: Fields, m: Model)
    requires ValidFields(f)
    ensures var st := ReconfigureStep(f, m);
      && (st.fault <==> ChooseAction(f, m) == NullPointer)
      && (m.active && !st.fault ==> st.next.current == Some(m))
      && (!m.active || st.fault ==> st.next == f)
  {
  }

  /** The guard of each action, in the order the chain tries them. */
  lemma ActionOrder(f: Fields, m: Model)
    ensures ChooseAction(f, m) == RunShutdown <==> !m.active
    ensures ChooseAction(f, m) == InitialConfiguration <==> m.active && f.current.None?
    ensures ChooseAction(f, m) == SwitchToInactive <==> m.active && f.current.Some? && IsNotPolling(m)
    ensures ChooseAction(f, m) == ReplaceAll <==>
      m.active && f.current.Some? && !IsNotPolling(m) && WasInactive(f)
    ensures ChooseAction(f, m) == ReplaceSecurity <==>
      && m.active && f.current.Some? && !IsNotPolling(m) && !WasInactive(f)
      && (|| TruststoreChanged(f.current.value, m) == Some(true)
          || (TruststoreChanged(f.current.value, m) == Some(false) && SecurityChanged(f.current.value, m) == Some(true)))
    ensures ChooseAction(f, m) == NullPointer <==>
      && m.active && f.current.Some? && !IsNotPolling(m) && !WasInactive(f)
      && (|| TruststoreChanged(f.current.value, m).None?
          || (TruststoreChanged(f.current.value, m) == Some(false) && SecurityChanged(f.current.value, m).None?))
    ensures ChooseAction(f, m) == ReplacePollingAndPublishing <==>
      && m.active && f.current.Some? && !IsNotPolling(m) && !WasInactive(f)
      && TruststoreChanged(f.current.value, m) == Some(false) && SecurityChanged(f.current.value, m) == Some(false)
      && DiffusionChanged(f.current.value, m)
    ensures ChooseAction(f, m) == ReplaceServices <==>
      && m.active && f.current.Some? && !IsNotPolling(m) && !WasInactive(f)
      && f.current.value.truststore.Some? && f.current.value.truststore == m.truststore
      && f.current.value.services.Some?
      && BasicSecurities(f.current.value.services.value) == BasicSecurities(m.services.value)
      && f.current.value.diffusion.Some? && f.current.value.diffusion == m.diffusion
  {
  }

  /** Because `haveServicesChanged` always holds, the chain never keeps the current components. */
  lemma NeverKeepsComponents(f: Fields, m: Model)
    ensures ChooseAction(f, m) != KeepComponents
  {
    HaveServicesChangedAlwaysHolds(m);
  }

  /**
   * With live containers, a model that polls, and no truststore on either side,
   * `hasTruststoreChanged` dereferences null: the call throws and changes nothing.
   */
  lemma MissingTruststoresThrow(f: Fields, m: Model)
    requires ValidFields(f) && f.current.Some? && !WasInactive(f)
    requires m.active && !IsNotPolling(m)
    requires f.current.value.truststore.None? && m.truststore.None?
    ensures ReconfigureStep(f, m) == Step(f, [], true)
  {
  }

  /** Under the invariant, that truststore dereference is the only way `reconfigure` throws. */
  lemma OnlyTruststoreThrows(f: Fields, m: Model)
    requires ValidFields(f)
    ensures ReconfigureStep(f, m).fault <==>
      m.active && f.current.Some? && !IsNotPolling(m) && !WasInactive(f) &&
      f.current.value.truststore.None? && m.truststore.None?
  {
  }

  /** `switchToInactiveComponents` forgets all four containers, after which `wasInactive` holds. */
  lemma SwitchToInactiveClears(f: Fields, m: Model)
    requires ValidFields(f) && ChooseAction(f, m) == SwitchToInactive
    ensures var st := ReconfigureStep(f, m);
      && st.next.top.None? && st.next.http.None? && st.next.diffusion.None? && st.next.services.None?
      && WasInactive(st.next)
      && st.effects == (if f.top.Some? then [Disposed(f.top.value)] else [])
  {
  }

  /** Is `Started` of a fresh container at `k`, with only creations before it and no creation after? */
  predicate StartsThenRetires(effects: seq<Effect>, k: nat, first: nat) {
    && k < |effects|
    && effects[k] == Started(first)
    && (forall i :: 0 <= i < k ==> effects[i].Created? && effects[i].id >= first)
    && (forall i :: k < i < |effects| ==> (effects[i].Disposed? || effects[i].ChildRemoved?))
  }

  lemma RetireOnlyDisposes(previous: Option<ContainerId>, parent: Option<ContainerId>)
    ensures forall e :: e in Retire(previous, parent) ==> e.Disposed? || e.ChildRemoved?
    ensures forall e :: e in Retire(previous, parent) ==> previous.Some? && (e.Disposed? ==> e.id == previous.value)
  {
  }

  /**
   * Each replacement creates the new containers and starts the new sub-tree root before
   * disposing of anything, and what it disposes of is the previous container.
   */
  lemma {:induction false} ReplacementStartsBeforeDisposing(f: Fields, m: Model)
    requires ValidFields(f)
    requires ChooseAction(f, m) in {ReplaceAll, ReplaceSecurity, ReplacePollingAndPublishing, ReplaceServices}
    ensures var st := ReconfigureStep(f, m);
      && (exists k :: StartsThenRetires(st.effects, k, f.nextId))
      && (forall i :: 0 <= i < |st.effects| && st.effects[i].Disposed? ==> st.effects[i].id < f.nextId)
  {
    var action := ChooseAction(f, m);
    var n := f.nextId;
    var (kinds, previous, parent) :=
      if action == ReplaceAll then ([TopLevel, Http, Diffusion, Services], f.top, None)
      else if action == ReplaceSecurity then ([Http, Diffusion, Services], f.http, f.top)
      else if action == ReplacePollingAndPublishing then ([Diffusion, Services], f.diffusion, f.http)
      else ([Services], f.services, f.diffusion);
    var creates := Creations(kinds, parent, n);
    assert ReconfigureStep(f, m).effects == creates + [Started(n)] + Retire(previous, parent);
    ReplacementShape(creates, n, previous, parent);
  }

  /** Fresh creations, the start of the first, then the retirement of an older container. */
  lemma ReplacementShape(creates: seq<Effect>, n: nat, previous: Option<ContainerId>, parent: Option<ContainerId>)
    requires forall i :: 0 <= i < |creates| ==> creates[i].Created? && creates[i].id >= n
    requires previous.Some? ==> previous.value < n
    ensures var effects := creates + [Started(n)] + Retire(previous, parent);
      && StartsThenRetires(effects, |creates|, n)
      && (forall i :: 0 <= i < |effects| && effects[i].Disposed? ==> effects[i].id < n)
  {
    var effects := creates + [Started(n)] + Retire(previous, parent);
    RetireOnlyDisposes(previous, parent);
    forall i | |creates| < i < |effects|
      ensures effects[i] in Retire(previous, parent)
    {
      assert effects[i] == Retire(previous, parent)[i - |creates| - 1];
    }
  }

  /** `close` does not clear the containers, so a second shutdown disposes of the same top level again. */
  lemma ShutdownTwiceDisposesTwice(f: Fields, m: Model)
    requires ValidFields(f) && !m.active && !WasInactive(f)
    ensures var once := ReconfigureStep(f, m);
      && once.next == f
      && ReconfigureStep(once.next, m).effects == [Disposed(f.top.value), ShutdownHandler]
  {
  }

  // ---------------------------------------------------------------------------
  // The adapter object

  class Adapter {
    var top: Option<ContainerId>
    var http: Option<ContainerId>
    var diffusion: Option<ContainerId>
    var services: Option<ContainerId>
    var currentModel: Option<Model>
    var nextId: nat
    /** Every outside effect performed so far, in order. */
    var trace: seq<Effect>

    function Snap(): Fields
      reads this
    {
      Fields(top, http, diffusion, services, currentModel, nextId)
    }

    ghost predicate Valid()
      reads this
    {
      ValidFields(Snap())
    }

    constructor ()
      ensures Valid() && Snap() == Initial && trace == []
    {
      top, http, diffusion, services := None, None, None, None;
      currentModel := None;
      nextId := 0;
      trace := [];
    }

    /** Builds a container below `parent` and registers it there. */
    method NewContainer(kind: ContainerKind, parent: Option<ContainerId>) returns (id: ContainerId)
      modifies this`nextId, this`trace
      ensures id == old(nextId) && nextId == old(nextId) + 1
      ensures trace == old(trace) + [Created(id, kind, parent)]
    {
      id := nextId;
      nextId := nextId + 1;
      trace := trace + [Created(id, kind, parent)];
    }

    method NewTree()
      modifies this`top, this`http, this`diffusion, this`services, this`nextId, this`trace
      ensures var n := old(nextId);
        && top == Some(n) && http == Some(n + 1) && diffusion == Some(n + 2) && services == Some(n + 3)
        && nextId == n + 4
        && trace == old(trace) + Creations([TopLevel, Http, Diffusion, Services], None, n)
    {
      var t := NewContainer(TopLevel, None);
      top := Some(t);
      var h := NewContainer(Http, top);
      http := Some(h);
      var d := NewContainer(Diffusion, http);
      diffusion := Some(d);
      var s := NewContainer(Services, diffusion);
      services := Some(s);
    }

    method Dispose(previous: Option<ContainerId>, parent: Option<ContainerId>)
      modifies this`trace
      ensures trace == old(trace) + Retire(previous, parent)
    {
      if previous.Some? {
        trace := trace + [Disposed(previous.value)];
        if parent.Some? {
          trace := trace + [ChildRemoved(parent.value, previous.value)];
        }
      }
    }

    /** `close()`. */
    method Close()
      requires Valid()
      modifies this`trace
      ensures trace == old(trace) + CloseEffects(Snap())
    {
      if !WasInactive(Snap()) {
        trace := trace + [Disposed(top.value)];
      }
    }

    method InitialConfigure(m: Model)
      modifies this
      ensures Snap() == InitialStep(old(Snap()), m).next
      ensures trace == old(trace) + InitialStep(old(Snap()), m).effects
    {
      if !IsNotPolling(m) {
        NewTree();
        trace := trace + [Started(top.value)];
      }
    }

    method SwitchToInactiveComponents()
      modifies this
      ensures Snap() == SwitchToInactiveStep(old(Snap())).next
      ensures trace == old(trace) + SwitchToInactiveStep(old(Snap())).effects
    {
      if top.Some? {
        trace := trace + [Disposed(top.value)];
        top, http, diffusion, services := None, None, None, None;
      }
    }

    method ReconfigureAll(m: Model)
      modifies this
      ensures Snap() == ReplaceAllStep(old(Snap()), m).next
      ensures trace == old(trace) + ReplaceAllStep(old(Snap()), m).effects
    {
      var oldTop := top;
      NewTree();
      trace := trace + [Started(top.value)];
      Dispose(oldTop, None);
    }

    method ReconfigureSecurity()
      requires top.Some?
      modifies this
      ensures Snap() == ReplaceSecurityStep(old(Snap())).next
      ensures trace == old(trace) + ReplaceSecurityStep(old(Snap())).effects
    {
      var oldHttp := http;
      var h := NewContainer(Http, top);
      http := Some(h);
      var d := NewContainer(Diffusion, http);
      diffusion := Some(d);
      var s := NewContainer(Services, diffusion);
      services := Some(s);
      trace := trace + [Started(h)];
      Dispose(oldHttp, top);
    }

    method ReconfigurePollingAndPublishing()
      requires http.Some?
      modifies this
      ensures Snap() == ReplacePollingStep(old(Snap())).next
      ensures trace == old(trace) + ReplacePollingStep(old(Snap())).effects
    {
      var oldDiffusion := diffusion;
      var d := NewContainer(Diffusion, http);
      diffusion := Some(d);
      var s := NewContainer(Services, diffusion);
      services := Some(s);
      trace := trace + [Started(d)];
      Dispose(oldDiffusion, http);
    }

    method ReconfigureServices()
      requires diffusion.Some?
      modifies this
      ensures Snap() == ReplaceServicesStep(old(Snap())).next
      ensures trace == old(trace) + ReplaceServicesStep(old(Snap())).effects
    {
      var oldServices := services;
      var s := NewContainer(Services, diffusion);
      services := Some(s);
      trace := trace + [Started(s)];
      Dispose(oldServices, diffusion);
    }

    /** `reconfigure(model)`. */
    method Reconfigure(m: Model) returns (threw: bool)
      requires Valid()
      modifies this
      ensures Valid()
      ensures Snap() == ReconfigureStep(old(Snap()), m).next
      ensures trace == old(trace) + ReconfigureStep(old(Snap()), m).effects
      ensures threw == ReconfigureStep(old(Snap()), m).fault
    {
      ReconfigureKeepsValid(Snap(), m);
      threw := false;
      var action := ChooseAction(Snap(), m);
      if action == RunShutdown {
        Close();
        trace := trace + [ShutdownHandler];
        return;
      }
      if action == NullPointer {
        threw := true;
        return;
      }
      match action {
        case InitialConfiguration => InitialConfigure(m);
        case SwitchToInactive => SwitchToInactiveComponents();
        case ReplaceAll => ReconfigureAll(m);
        case ReplaceSecurity => ReconfigureSecurity();
        case ReplacePollingAndPublishing => ReconfigurePollingAndPublishing();
        case ReplaceServices => ReconfigureServices();
        case _ =>
      }
      currentModel := Some(m);
    }
  }
}
