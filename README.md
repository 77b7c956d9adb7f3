# Diffusion REST adapter: a verified model of the control logic

The Diffusion REST adapter polls REST services and publishes what they return to topics on a
Diffusion server. This project models the adapter's control logic in Dafny and proves
properties of that model. The HTTP client, the Diffusion broker and the dependency-injection
containers are left out; every call the logic makes on them is recorded as an effect in a
trace, with its arguments.

The modules follow the program's files:

- `internal_adapter.dfy` (`InternalAdapter`) is the reconfiguration state machine. It covers the
  states INIT, CONNECTING_TO_DIFFUSION, STANDBY, ACTIVE, RECOVERING, STOPPING and STOPPED, and the
  events `onReconfiguration`, `onSessionOpen`, `onSessionLost`, `onSessionClosed` and `close`.
  - Each event is a pure step function from the adapter's fields to new fields, the effects in
    order, and whether it threw.
  - The class `Adapter` updates its fields in place, and each method is proved equal to its step.
- `rest_adapter.dfy` (`RestAdapter`) is the older container-based adapter. It models the ordered
  branch chain of `reconfigure` and the swaps of its four containers, numbered as they are created.
- `service_session_impl.dfy` and `service_session.dfy` are the two per-service polling schedulers.
  Each has a map from endpoint to poll handle and a running flag.
- `abstract_update_context.dfy` and `value_update_context.dfy` are the recovery-aware publish path,
  with its single-slot cache.
- `endpoint_type.dfy` is the endpoint type registry and content-type inference.
- `topic_management.dfy` builds topic paths and classifies topic-creation failures.
- `endpoint_client.dfy` is the HTTP polling client and its completion handling.
- `service_session_group.dfy` assembles and tears down the service sessions.
- `metrics_dispatcher.dfy` fans metrics out using per-request listener snapshots.
- `topic_metrics_reporter.dfy` holds the topic-creation aggregator and the reporting task guard.
- `event_count_reporter.dfy` is the counting reporter's task guard.
- `v11_converter.dfy` and `v3_converter.dfy` are the configuration-version converters.
- `events.dfy` models the metrics event records of `events.kt` and their `Long` time differences.
- `config.dfy` holds the configuration snapshot the adapter is reconfigured with.
- `diffusion_session.dfy` holds the session states.
- `wrappers.dfy` holds Option, Result and the `String.valueOf` helpers.

A Java reference that may be null is an `Option`. A call that throws is a `threw` result, or a
`fault` flag on a step; any effects that ran before the throw are kept.

## Behaviour kept as the code has it

Several behaviours differ from what the adapter's documentation describes. The model follows the
code and proves the behaviour:

- `RESTAdapter.haveServicesChanged` reads the new model's service list twice and compares it with
  itself, so it always holds. The documented intent was a comparison with the current list.
  Consequences:
  - the chain never keeps the current components (`RestAdapter.HaveServicesChangedAlwaysHolds`,
    `RestAdapter.NeverKeepsComponents`);
  - an unchanged model therefore rebuilds the services container.
- `RESTAdapter.hasTruststoreChanged` dereferences the current truststore when both truststores are
  null. With live containers and no truststore, every `reconfigure` of a polling model throws
  (`RestAdapter.MissingTruststoresThrow`, `RestAdapter.OnlyTruststoreThrows`).
- In the standby, reconnect and activate branches of `InternalRESTAdapter.onReconfiguration`,
  `reconfigureMetricsReporting` runs before the new model is stored. A metrics change there
  restarts metrics from the previous model's settings (`InternalAdapter.MetricsRestartUsesPreviousModel`).
- `InternalRESTAdapter.hasDiffusionChanged` dereferences the current Diffusion configuration, so a
  current model without one makes `onReconfiguration` throw (`InternalAdapter.MissingDiffusionThrows`).
- The adapter dereferences its Diffusion session in `shutdownSession` and `close`. That session
  can be null in STANDBY or ACTIVE after `onSessionClosed`. Those steps then report a fault, after
  the effects that ran first.
- `AbstractUpdateContext.publish` and `ValueUpdateContext.publish` send directly while the session is
  still CONNECTING (`AbstractUpdateContext.PublishOutcomeIn`).
- `EndpointClientImpl.close` closes the HTTP client but does not forget it. A later `request`
  therefore passes the adapter's own null guard: the poll listener is notified and the request
  is handed to the closed client (`EndpointClient.RequestLifecycle`).
- `ServiceSessionGroupImpl.start` never clears its session list, so a second `start` keeps two
  sessions per service (`ServiceSessionGroup.StartTwiceThenClose`).
- The `requestTime` getters of the events subtract two `Long` timestamps, which wraps outside the
  64-bit range (`Events.WrapsOutOfRange`). Clock readings are non-negative, so for them it never
  wraps (`Events.ClockReadingsFit`).

## Model

| member | source | states |
|---|---|---|
| Wrappers.IntToString | configuration-model-conversion/src/main/java/com/pushtechnology/adapters/rest/model/conversion/V11Converter.java:57 | `String.valueOf(int)` text: non-empty, a leading '-' exactly for negative numbers, digits elsewhere |
| Wrappers.IntToStringInjective | configuration-model-conversion/src/main/java/com/pushtechnology/adapters/rest/model/conversion/V11Converter.java:57 | distinct port numbers give distinct text, so the port in a service name can be read back |
| Config.TotalEndpointsZero | adapter/src/main/java/com/pushtechnology/adapters/rest/adapter/InternalRESTAdapter.java:278-286 | the summed endpoint count is zero exactly when no service has an endpoint |
| Config.PollingIffSomeEndpoint | adapter/src/main/java/com/pushtechnology/adapters/rest/adapter/InternalRESTAdapter.java:278-286 | a model polls exactly when it has a Diffusion configuration and some service has an endpoint |
| Config.IsNotPolling | adapter/src/main/java/com/pushtechnology/adapters/rest/adapter/InternalRESTAdapter.java:278-286 | `isNotPolling`: no Diffusion section, no or an empty service list, or no endpoint summed over the services; characterised both ways by `Config.PollingIffSomeEndpoint` |
| Config.BasicSecurities | adapter/src/main/java/com/pushtechnology/adapters/rest/adapter/InternalRESTAdapter.java:294-309 | the stream of service securities, keeping those present with basic authentication, in service order; its properties are the three lemmas below |
| Config.BasicSecuritiesFromServices | adapter/src/main/java/com/pushtechnology/adapters/rest/adapter/InternalRESTAdapter.java:294-309 | the compared basic-authentication list holds only securities of services that have basic authentication, never more than the services |
| Config.BasicSecuritiesAppend | adapter/src/main/java/com/pushtechnology/adapters/rest/adapter/InternalRESTAdapter.java:294-309 | the collected list distributes over concatenation of service lists, so it keeps the services' order |
| Config.BasicSecuritiesComplete | adapter/src/main/java/com/pushtechnology/adapters/rest/adapter/InternalRESTAdapter.java:294-309 | every service whose security has basic authentication contributes that security to the list |
| DiffusionSession.ClassificationsDisjoint | publication/src/main/java/com/pushtechnology/adapters/rest/publication/AbstractUpdateContext.java:52-64 | every session state is exactly one of closed, recovering and connected, except CONNECTING, which is none of them; `PublishOutcomeIn` uses it to state that a value is sent exactly while connected or connecting |
| AbstractUpdateContext.PublishOutcomeIn | publication/src/main/java/com/pushtechnology/adapters/rest/publication/AbstractUpdateContext.java:52-64 | publish throws exactly when the session is closed, caches exactly when it is recovering, and sends otherwise, that is exactly while connected or connecting |
| AbstractUpdateContext.UpdateContext.constructor | publication/src/main/java/com/pushtechnology/adapters/rest/publication/AbstractUpdateContext.java:33 | a new context has an empty cache slot and has sent nothing |
| AbstractUpdateContext.UpdateContext.Publish | publication/src/main/java/com/pushtechnology/adapters/rest/publication/AbstractUpdateContext.java:52-64 | closed: IllegalStateException and nothing changes; recovering: the value replaces the cached one; otherwise it is sent and the slot is untouched |
| AbstractUpdateContext.UpdateContext.OnSessionStateChanged | publication/src/main/java/com/pushtechnology/adapters/rest/publication/AbstractUpdateContext.java:41-49 | only a recovering-to-connected change of this context's own session takes and clears the slot and sends the value it held; any other change leaves slot and sends alone |
| AbstractUpdateContext.LastValueWins | publication/src/main/java/com/pushtechnology/adapters/rest/publication/AbstractUpdateContext.java:41-64 | two values cached while recovering: only the second is sent on recovery, and a second recovery sends nothing |
| AbstractUpdateContext.ClosedAndForeignTransitions | publication/src/main/java/com/pushtechnology/adapters/rest/publication/AbstractUpdateContext.java:41-64 | a closed session refuses the value; another session's transitions and other transitions keep the cached value unsent |
| ValueUpdateContext.CompletionNotice | publication/src/main/java/com/pushtechnology/adapters/rest/publication/ValueUpdateContext.java:124-133 | a completed `set` notifies its own completion listener once: published on success, failed with a communication failure otherwise |
| ValueUpdateContext.Context.constructor | publication/src/main/java/com/pushtechnology/adapters/rest/publication/ValueUpdateContext.java:71-85 | a new context has an empty cache slot and no effect yet |
| ValueUpdateContext.Context.RequestPublication | publication/src/main/java/com/pushtechnology/adapters/rest/publication/ValueUpdateContext.java:116-122 | the publication listener hears of the path and the encoded length, and hands out the next completion listener |
| ValueUpdateContext.Context.Set | publication/src/main/java/com/pushtechnology/adapters/rest/publication/ValueUpdateContext.java:124-133 | one update-stream `set` of the value, carrying the request's completion listener |
| ValueUpdateContext.Context.SetCompleted | publication/src/main/java/com/pushtechnology/adapters/rest/publication/ValueUpdateContext.java:124-133 | the completion of a `set` appends exactly its completion notice |
| ValueUpdateContext.Context.ApplyValue | publication/src/main/java/com/pushtechnology/adapters/rest/publication/ValueUpdateContext.java:116-122 | request first, then set, with the listener the request handed out |
| ValueUpdateContext.Context.Publish | publication/src/main/java/com/pushtechnology/adapters/rest/publication/ValueUpdateContext.java:99-114 | closed: throws with no effect; recovering: the listener hears of the request and the request replaces the cached one; otherwise request then set |
| ValueUpdateContext.Context.OnSessionStateChanged | publication/src/main/java/com/pushtechnology/adapters/rest/publication/ValueUpdateContext.java:87-96 | a recovering-to-connected change of its own session sets the cached value with the cached request's listener and clears the slot; nothing else happens otherwise |
| ValueUpdateContext.SetValuesAppend | publication/src/main/java/com/pushtechnology/adapters/rest/publication/ValueUpdateContext.java:124-133 | the values set over two stretches of effects are those of the first then those of the second |
| ValueUpdateContext.LatestCachedRequestWins | publication/src/main/java/com/pushtechnology/adapters/rest/publication/ValueUpdateContext.java:87-114 | both requests are reported with their lengths, only the second value is set, once, and a second recovery sets nothing |
| EndpointTypes.Identifiers | endpoints/src/main/java/com/pushtechnology/adapters/rest/endpoints/EndpointType.java:46-85 | each type has its name and at least one media type as identifiers |
| EndpointTypes.GetIdentifier | endpoints/src/main/java/com/pushtechnology/adapters/rest/endpoints/EndpointType.java:152-154 | a type's identifier is one of its own identifiers |
| EndpointTypes.IsJsonContent | endpoints/src/main/java/com/pushtechnology/adapters/rest/endpoints/EndpointType.java:57-58 | JSON's predicate: the content type is present and starts with `application/json` or `text/json` |
| EndpointTypes.CanHandle | endpoints/src/main/java/com/pushtechnology/adapters/rest/endpoints/EndpointType.java:46-85 | `canHandle`: JSON uses its predicate, PLAIN_TEXT accepts `text/plain` or whatever JSON accepts, BINARY accepts any content type including null; related by `EndpointTypes.PlainTextAcceptsJson` and `EndpointTypes.InferFromContentType` |
| EndpointTypes.Register | endpoints/src/main/java/com/pushtechnology/adapters/rest/endpoints/EndpointType.java:87-100 | the `putIfAbsent` walk: absent as soon as an identifier is already present (the IllegalStateException), otherwise the filled lookup; characterised by `EndpointTypes.RegisterSucceedsIffDistinct` |
| EndpointTypes.DistinctCons | endpoints/src/main/java/com/pushtechnology/adapters/rest/endpoints/EndpointType.java:87-100 | a list of identifiers has no repeat exactly when its head is not in its tail and its tail has no repeat |
| EndpointTypes.RegisterSucceedsIffDistinct | endpoints/src/main/java/com/pushtechnology/adapters/rest/endpoints/EndpointType.java:87-100 | the `putIfAbsent` registration succeeds exactly when no identifier repeats and none was registered before; it then maps each identifier to its own type and adds nothing else |
| EndpointTypes.RegisterAppend | endpoints/src/main/java/com/pushtechnology/adapters/rest/endpoints/EndpointType.java:87-100 | registering two batches is registering the first, then the second into its result |
| EndpointTypes.ShippedEntries | endpoints/src/main/java/com/pushtechnology/adapters/rest/endpoints/EndpointType.java:87-100 | the static initialiser registers the seven identifiers of JSON, PLAIN_TEXT and BINARY in that order |
| EndpointTypes.ShippedRegistrationSucceeds | endpoints/src/main/java/com/pushtechnology/adapters/rest/endpoints/EndpointType.java:87-100 | the shipped identifiers are pairwise distinct, so the static initialiser does not throw and yields the seven-entry lookup |
| EndpointTypes.RegisterType | endpoints/src/main/java/com/pushtechnology/adapters/rest/endpoints/EndpointType.java:87-100 | the per-type loop throws exactly when the registration of that type's identifiers fails, and otherwise yields the registered lookup |
| EndpointTypes.Initialise | endpoints/src/main/java/com/pushtechnology/adapters/rest/endpoints/EndpointType.java:87-100 | the whole initialiser throws exactly when the registration of all identifiers in order fails, that is as soon as one identifier is already present, and otherwise yields that lookup |
| EndpointTypes.InitialiseShipped | endpoints/src/main/java/com/pushtechnology/adapters/rest/endpoints/EndpointType.java:87-100 | initialising with the shipped types does not throw and yields the seven-entry lookup |
| EndpointTypes.From | endpoints/src/main/java/com/pushtechnology/adapters/rest/endpoints/EndpointType.java:174-180 | `from` succeeds exactly for a registered identifier and otherwise fails with "Unknown endpoint type " followed by the identifier |
| EndpointTypes.FromResolvesIdentifiers | endpoints/src/main/java/com/pushtechnology/adapters/rest/endpoints/EndpointType.java:174-180 | `from(id)` is type `t` exactly when `id` is one of `t`'s identifiers |
| EndpointTypes.FromGetIdentifier | endpoints/src/main/java/com/pushtechnology/adapters/rest/endpoints/EndpointType.java:152-180 | round trip: `from(t.getIdentifier())` is `t` for every type |
| EndpointTypes.PlainTextAcceptsJson | endpoints/src/main/java/com/pushtechnology/adapters/rest/endpoints/EndpointType.java:61-71 | PLAIN_TEXT can handle every content type JSON can handle |
| EndpointTypes.InferFromContentType | endpoints/src/main/java/com/pushtechnology/adapters/rest/endpoints/EndpointType.java:185-195 | the inferred type can handle the content type; JSON exactly when JSON can, PLAIN_TEXT exactly when only it can, BINARY otherwise |
| TopicManagement.TopicPath | topic-management/src/main/java/com/pushtechnology/adapters/rest/topic/management/TopicManagementClientImpl.java:57 | the topic path is the service's root, a slash, and the endpoint's topic path, each recoverable from the result |
| TopicManagement.RemovalPolicy | topic-management/src/main/java/com/pushtechnology/adapters/rest/topic/management/TopicManagementClientImpl.java:63-65 | the removal policy is the fixed prefix, the principal verbatim and the one-minute suffix, so the principal can be read back |
| TopicManagement.Propagated | topic-management/src/main/java/com/pushtechnology/adapters/rest/topic/management/TopicManagementClientImpl.java:83-84 | a dependent stage sees a CompletionException, wrapping a raw exception and passing an existing one through |
| TopicManagement.FailReason | topic-management/src/main/java/com/pushtechnology/adapters/rest/topic/management/TopicManagementClientImpl.java:84-106 | each of the four known causes inside a CompletionException gives its own reason; anything else, raw or wrapped, is UNEXPECTED_ERROR |
| TopicManagement.AddTopic | topic-management/src/main/java/com/pushtechnology/adapters/rest/topic/management/TopicManagementClientImpl.java:77-107 | `addTopic`: the listener hears of the request, the topic is added, then creation or the classified failure is reported and the future completes as the Diffusion call did; stated by `SuccessReportsCreated` and `FailureClassifiedByCause` |
| TopicManagement.AddEndpoint | topic-management/src/main/java/com/pushtechnology/adapters/rest/topic/management/TopicManagementClientImpl.java:52-68 | `addEndpoint`: `produces` is resolved first (an unknown one throws before any request), then the endpoint's topic is added with its type's topic type and the removal policy of the session principal; stated by `UnknownProducesThrows` and `AddedTopicIsTheRemovedTopic` |
| TopicManagement.RemoveEndpoint | topic-management/src/main/java/com/pushtechnology/adapters/rest/topic/management/TopicManagementClientImpl.java:71-75 | `removeEndpoint`: one removal of the topics selected by the endpoint's topic path, the path `addEndpoint` creates |
| TopicManagement.UnknownProducesThrows | topic-management/src/main/java/com/pushtechnology/adapters/rest/topic/management/TopicManagementClientImpl.java:52-68 | `addEndpoint` throws before any request exactly when the endpoint's `produces` is not a registered identifier |
| TopicManagement.AddedTopicIsTheRemovedTopic | topic-management/src/main/java/com/pushtechnology/adapters/rest/topic/management/TopicManagementClientImpl.java:52-75 | an issued request creates the endpoint's own path with its endpoint type's topic type and the principal's removal policy, tells the listener once before `addTopic`, and `removeEndpoint` removes that same path |
| TopicManagement.SuccessReportsCreated | topic-management/src/main/java/com/pushtechnology/adapters/rest/topic/management/TopicManagementClientImpl.java:77-107 | a successful add reports `onTopicCreated`, no failure, and the returned future completes with the Diffusion result |
| TopicManagement.FailureClassifiedByCause | topic-management/src/main/java/com/pushtechnology/adapters/rest/topic/management/TopicManagementClientImpl.java:77-107 | a failed add is classified by its cause, never reports creation, and the returned future fails too |
| TopicManagement.DisconnectionIsUnexpected | topic-management/src/main/java/com/pushtechnology/adapters/rest/topic/management/TopicManagementClientImpl.java:84-106 | a failure with a cause outside the four known kinds is reported as UNEXPECTED_ERROR |
| EndpointClient.Scheme | polling/src/main/java/com/pushtechnology/adapters/rest/polling/EndpointClientImpl.java:80-82 | a secure service is requested over https, any other over http |
| EndpointClient.Completion | polling/src/main/java/com/pushtechnology/adapters/rest/polling/EndpointClientImpl.java:85-112 | every callback completes the future exactly once, last; status 400 or more fails it without a listener notice; a readable response is passed to the listener and then completes it; a failure notifies the listener of the same failure and fails it; a cancellation cancels it |
| EndpointClient.Client.constructor | polling/src/main/java/com/pushtechnology/adapters/rest/polling/EndpointClientImpl.java:57-67 | a new client holds no HTTP client and has no effect yet |
| EndpointClient.Client.Start | polling/src/main/java/com/pushtechnology/adapters/rest/polling/EndpointClientImpl.java:118-124 | a new HTTP client is created, started and kept, replacing any earlier one |
| EndpointClient.Client.Request | polling/src/main/java/com/pushtechnology/adapters/rest/polling/EndpointClientImpl.java:69-115 | before `start`: IllegalStateException and nothing done; otherwise the poll listener hears of the request, then the GET of the endpoint URL on the service's host, port and scheme is executed |
| EndpointClient.Client.OnCallback | polling/src/main/java/com/pushtechnology/adapters/rest/polling/EndpointClientImpl.java:85-112 | a callback appends exactly the completion handling of that request |
| EndpointClient.Client.Close | polling/src/main/java/com/pushtechnology/adapters/rest/polling/EndpointClientImpl.java:127-137 | closes the kept client, which stays set; before `start` the dereference throws with nothing done |
| EndpointClient.RequestLifecycle | polling/src/main/java/com/pushtechnology/adapters/rest/polling/EndpointClientImpl.java:69-137 | a request before `start` is refused with no effect; after `start` the listener hears of it once; after `close` the client field is still set, so a request passes the null guard (what the closed HTTP client then does is not modelled) |
| ServiceSessionImpl.ScheduleFor | polling/src/main/java/com/pushtechnology/adapters/rest/polling/ServiceSessionImpl.java:91-100 | a poll period of zero or less polls once, immediately; a positive one polls repeatedly from now with that delay |
| ServiceSessionImpl.StopEffectsAppend | polling/src/main/java/com/pushtechnology/adapters/rest/polling/ServiceSessionImpl.java:115-124 | stopping one more endpoint appends exactly its cancellations |
| ServiceSessionImpl.StopCancelsEveryTask | polling/src/main/java/com/pushtechnology/adapters/rest/polling/ServiceSessionImpl.java:105-124 | `stop` only cancels, and cancels the task of every endpoint that has a handle |
| ServiceSessionImpl.Session.constructor | polling/src/main/java/com/pushtechnology/adapters/rest/polling/ServiceSessionImpl.java:56-66 | a new session tracks no endpoint, is not running and has no effect yet |
| ServiceSessionImpl.Session.StartEndpoint | polling/src/main/java/com/pushtechnology/adapters/rest/polling/ServiceSessionImpl.java:85-103 | one polling task is scheduled as the poll period says and a fresh handle with no poll in flight is returned |
| ServiceSessionImpl.Session.Start | polling/src/main/java/com/pushtechnology/adapters/rest/polling/ServiceSessionImpl.java:69-74 | the session runs, keeps its endpoints, and every tracked endpoint gets a fresh scheduled handle, each exactly once |
| ServiceSessionImpl.Session.AddEndpoint | polling/src/main/java/com/pushtechnology/adapters/rest/polling/ServiceSessionImpl.java:77-83 | a tracked endpoint is left alone; a new one is scheduled while running and tracked without a handle otherwise |
| ServiceSessionImpl.Session.StopEndpoint | polling/src/main/java/com/pushtechnology/adapters/rest/polling/ServiceSessionImpl.java:105-112 | a handle's task is cancelled, then its poll in flight if any; no handle, nothing |
| ServiceSessionImpl.Session.Stop | polling/src/main/java/com/pushtechnology/adapters/rest/polling/ServiceSessionImpl.java:115-124 | the session stops, every endpoint stays tracked with no handle, and the cancellations of every handle are performed |
| ServiceSessionImpl.Session.RunPollingTask | polling/src/main/java/com/pushtechnology/adapters/rest/polling/ServiceSessionImpl.java:139-146 | the request is issued; it becomes the endpoint's current poll, or the assignment throws when the endpoint has no handle |
| ServiceSessionImpl.Session.Completed | polling/src/main/java/com/pushtechnology/adapters/rest/polling/ServiceSessionImpl.java:160-166 | a response is passed on only while the session runs |
| ServiceSessionImpl.Session.Failed | polling/src/main/java/com/pushtechnology/adapters/rest/polling/ServiceSessionImpl.java:169-171 | a failure is always passed on |
| ServiceSessionImpl.Session.Cancelled | polling/src/main/java/com/pushtechnology/adapters/rest/polling/ServiceSessionImpl.java:174-176 | a cancellation is always passed on |
| ServiceSessionImpl.StartStopDropsLateResponse | polling/src/main/java/com/pushtechnology/adapters/rest/polling/ServiceSessionImpl.java:69-176 | the endpoint is scheduled as its period says, a response after `stop` is dropped, and `stop` leaves the endpoint tracked with a null handle |
| ServiceSession.StartEffects | polling/src/main/java/com/pushtechnology/adapters/rest/polling/ServiceSession.java:74-92 | `start` schedules one task per configured endpoint, in order |
| ServiceSession.StopEffectsAppend | polling/src/main/java/com/pushtechnology/adapters/rest/polling/ServiceSession.java:97-112 | stopping one more endpoint appends exactly its cancellations |
| ServiceSession.StopCancelsEveryTask | polling/src/main/java/com/pushtechnology/adapters/rest/polling/ServiceSession.java:97-112 | `stop` only cancels, and cancels the task of every configured endpoint |
| ServiceSession.Session.constructor | polling/src/main/java/com/pushtechnology/adapters/rest/polling/ServiceSession.java:60-70 | a new session tracks no endpoint, is not running and has no effect yet |
| ServiceSession.Session.StartEndpoint | polling/src/main/java/com/pushtechnology/adapters/rest/polling/ServiceSession.java:83-92 | a period that is not positive throws with nothing tracked; otherwise one fixed-delay task with that period is scheduled and tracked |
| ServiceSession.Session.Start | polling/src/main/java/com/pushtechnology/adapters/rest/polling/ServiceSession.java:74-78 | the session runs; it throws exactly when the period is not positive and there is an endpoint; otherwise every configured endpoint is scheduled and tracked, in order |
| ServiceSession.Session.StopEndpoint | polling/src/main/java/com/pushtechnology/adapters/rest/polling/ServiceSession.java:97-104 | the endpoint is untracked and its task and poll in flight are cancelled |
| ServiceSession.Session.Stop | polling/src/main/java/com/pushtechnology/adapters/rest/polling/ServiceSession.java:109-112 | the session stops, every configured endpoint is untracked and their cancellations performed in order |
| ServiceSession.Session.RunPollingTask | polling/src/main/java/com/pushtechnology/adapters/rest/polling/ServiceSession.java:127-134 | the request is issued; it is recorded on the endpoint's handle, or the assignment throws for an untracked endpoint |
| ServiceSession.Session.Completed | polling/src/main/java/com/pushtechnology/adapters/rest/polling/ServiceSession.java:148-156 | a polled value is published only while the session runs |
| ServiceSession.Session.Failed | polling/src/main/java/com/pushtechnology/adapters/rest/polling/ServiceSession.java:159-161 | a failure publishes nothing |
| ServiceSession.Session.Cancelled | polling/src/main/java/com/pushtechnology/adapters/rest/polling/ServiceSession.java:164-166 | a cancellation publishes nothing |
| ServiceSession.StartThenStop | polling/src/main/java/com/pushtechnology/adapters/rest/polling/ServiceSession.java:74-156 | start then stop: every endpoint gets one task, nothing stays tracked, and a later value is not published; a non-positive period throws |
| ServiceSessionGroup.StartEffects | adapter/src/main/java/com/pushtechnology/adapters/rest/adapter/ServiceSessionGroupImpl.java:69-79 | `start` performs three effects per service |
| ServiceSessionGroup.StartEffectsInOrder | adapter/src/main/java/com/pushtechnology/adapters/rest/adapter/ServiceSessionGroupImpl.java:69-79 | one session per service, in order and numbered consecutively, each service registered with topic management just before the publishing client |
| ServiceSessionGroup.Relay | adapter/src/main/java/com/pushtechnology/adapters/rest/adapter/ServiceSessionGroupImpl.java:74-77 | the callbacks act only on their own service: standby and close notify the service listener; active readies the service for publishing with its own session, then notifies the listener |
| ServiceSessionGroup.Group.constructor | adapter/src/main/java/com/pushtechnology/adapters/rest/adapter/ServiceSessionGroupImpl.java:51-64 | a new group keeps no session and has no effect yet |
| ServiceSessionGroup.Group.Start | adapter/src/main/java/com/pushtechnology/adapters/rest/adapter/ServiceSessionGroupImpl.java:67-81 | a null service list throws with nothing done; otherwise the sessions of every service are appended to those already kept, with their registrations and effects |
| ServiceSessionGroup.Group.OnSourceEvent | adapter/src/main/java/com/pushtechnology/adapters/rest/adapter/ServiceSessionGroupImpl.java:74-77 | an update-source event runs exactly its registration's callback |
| ServiceSessionGroup.Group.Close | adapter/src/main/java/com/pushtechnology/adapters/rest/adapter/ServiceSessionGroupImpl.java:85-90 | every kept session is stopped, then every configured service removed; a null service list throws after the sessions are stopped |
| ServiceSessionGroup.StartTwiceThenClose | adapter/src/main/java/com/pushtechnology/adapters/rest/adapter/ServiceSessionGroupImpl.java:67-90 | starting twice keeps two sessions per service; closing stops all of them and removes each service once |
| MetricsDispatcher.Dispatcher.constructor | adapter/src/main/java/com/pushtechnology/adapters/rest/adapter/MetricsDispatcher.java:56-60 | a new dispatcher has no listener and has no effect yet |
| MetricsDispatcher.Dispatcher.AddPollListener | adapter/src/main/java/com/pushtechnology/adapters/rest/adapter/MetricsDispatcher.java:65-67 | the poll listener is appended to the poll listeners |
| MetricsDispatcher.Dispatcher.AddPublicationListener | adapter/src/main/java/com/pushtechnology/adapters/rest/adapter/MetricsDispatcher.java:72-74 | the publication listener is appended to the publication listeners |
| MetricsDispatcher.Dispatcher.AddTopicCreationListener | adapter/src/main/java/com/pushtechnology/adapters/rest/adapter/MetricsDispatcher.java:79-81 | the topic creation listener is appended to the topic creation listeners |
| MetricsDispatcher.Dispatcher.Dispatch | adapter/src/main/java/com/pushtechnology/adapters/rest/adapter/MetricsDispatcher.java:84-92 | every listener of the request's kind hears of it once, in order, and the completion listeners they return are collected |
| MetricsDispatcher.Dispatcher.OnPollRequest | adapter/src/main/java/com/pushtechnology/adapters/rest/adapter/MetricsDispatcher.java:84-104 | every poll listener hears of the request in order; the composite holds exactly their completion listeners |
| MetricsDispatcher.Dispatcher.OnTopicCreationRequest | adapter/src/main/java/com/pushtechnology/adapters/rest/adapter/MetricsDispatcher.java:107-157 | both overloads: every topic creation listener hears of the request, with the initial value when given; the composite holds exactly their completion listeners |
| MetricsDispatcher.Dispatcher.OnPublicationRequest | adapter/src/main/java/com/pushtechnology/adapters/rest/adapter/MetricsDispatcher.java:160-184 | every publication listener hears of the request and its value in order; the composite holds exactly their completion listeners |
| MetricsDispatcher.Dispatcher.Complete | adapter/src/main/java/com/pushtechnology/adapters/rest/adapter/MetricsDispatcher.java:93-103 | an outcome reaches every completion listener collected at request time, in order, and nothing else |
| MetricsDispatcher.SnapshotAtRequestTime | adapter/src/main/java/com/pushtechnology/adapters/rest/adapter/MetricsDispatcher.java:84-104 | a listener added after a request does not hear that request's outcome, but hears later requests |
| EventCountReporter.StartStep | metrics/metric-reporting/src/main/java/com/pushtechnology/adapters/rest/metric/reporters/EventCountReporter.java:67-98 | with a task held, `start` changes nothing; otherwise one task is scheduled at a fixed rate of one minute after one minute, and held |
| EventCountReporter.CloseStep | metrics/metric-reporting/src/main/java/com/pushtechnology/adapters/rest/metric/reporters/EventCountReporter.java:102-107 | no task is held afterwards; a held task is cancelled without interrupting a run in progress |
| EventCountReporter.LiveAppend | metrics/metric-reporting/src/main/java/com/pushtechnology/adapters/rest/metric/reporters/EventCountReporter.java:67-107 | scheduling adds a task to the live ones; cancelling removes it |
| EventCountReporter.StartKeepsValid | metrics/metric-reporting/src/main/java/com/pushtechnology/adapters/rest/metric/reporters/EventCountReporter.java:67-98 | `start` keeps the live tasks equal to the held one, and afterwards a live task is held |
| EventCountReporter.CloseKeepsValid | metrics/metric-reporting/src/main/java/com/pushtechnology/adapters/rest/metric/reporters/EventCountReporter.java:102-107 | `close` keeps the live tasks equal to the held one, and afterwards no task is live |
| EventCountReporter.AtMostOneTask | metrics/metric-reporting/src/main/java/com/pushtechnology/adapters/rest/metric/reporters/EventCountReporter.java:67-107 | whatever the order of `start` and `close` calls, at most one logging task is live |
| EventCountReporter.StartIdempotent | metrics/metric-reporting/src/main/java/com/pushtechnology/adapters/rest/metric/reporters/EventCountReporter.java:68-70 | a second `start` does nothing |
| EventCountReporter.CloseIdempotent | metrics/metric-reporting/src/main/java/com/pushtechnology/adapters/rest/metric/reporters/EventCountReporter.java:102-107 | a second `close` does nothing |
| EventCountReporter.StartAfterCloseIsFresh | metrics/metric-reporting/src/main/java/com/pushtechnology/adapters/rest/metric/reporters/EventCountReporter.java:67-107 | after `close`, `start` schedules a new task rather than reviving the cancelled one |
| EventCountReporter.Reporter.constructor | metrics/metric-reporting/src/main/java/com/pushtechnology/adapters/rest/metric/reporters/EventCountReporter.java:52-61 | a new reporter holds no task, has no effect yet, and satisfies the invariant |
| EventCountReporter.Reporter.Start | metrics/metric-reporting/src/main/java/com/pushtechnology/adapters/rest/metric/reporters/EventCountReporter.java:67-98 | the fields and effects change as `start` says, and the invariant is kept |
| EventCountReporter.Reporter.Close | metrics/metric-reporting/src/main/java/com/pushtechnology/adapters/rest/metric/reporters/EventCountReporter.java:102-107 | the fields and effects change as `close` says, and the invariant is kept |
| TopicMetricsReporter.Settled | metrics/topic-based-metrics-reporting/src/main/java/com/pushtechnology/adapters/rest/metrics/reporting/topics/TopicBasedMetricsReporter.java:136-145 | no verdict while a topic is outstanding; then success exactly when none failed |
| TopicMetricsReporter.Handle | metrics/topic-based-metrics-reporting/src/main/java/com/pushtechnology/adapters/rest/metrics/reporting/topics/TopicBasedMetricsReporter.java:115-133 | an added topic, or one that already exists, is settled without failure; any other failure is recorded; a discard fails at once; the verdict is recomputed after each result |
| TopicMetricsReporter.ExistsCountsAsAdded | metrics/topic-based-metrics-reporting/src/main/java/com/pushtechnology/adapters/rest/metrics/reporting/topics/TopicBasedMetricsReporter.java:122-128 | a topic that already exists counts exactly as one that was added |
| TopicMetricsReporter.FailureIsFinal | metrics/topic-based-metrics-reporting/src/main/java/com/pushtechnology/adapters/rest/metrics/reporting/topics/TopicBasedMetricsReporter.java:122-145 | once a topic has failed, no later event can produce success |
| TopicMetricsReporter.AllAddedSucceedsOnce | metrics/topic-based-metrics-reporting/src/main/java/com/pushtechnology/adapters/rest/metrics/reporting/topics/TopicBasedMetricsReporter.java:115-145 | when each requested topic is added once, success is reported exactly once, at the last one |
| TopicMetricsReporter.BeginReportingStep | metrics/topic-based-metrics-reporting/src/main/java/com/pushtechnology/adapters/rest/metrics/reporting/topics/TopicBasedMetricsReporter.java:151-165 | with a task held, nothing changes; otherwise one task is scheduled at a fixed rate of one minute after one minute, and held |
| TopicMetricsReporter.RemovalSelector | metrics/topic-based-metrics-reporting/src/main/java/com/pushtechnology/adapters/rest/metrics/reporting/topics/TopicBasedMetricsReporter.java:88 | the removal selector is '?', the root topic and a slash |
| TopicMetricsReporter.CloseStep | metrics/topic-based-metrics-reporting/src/main/java/com/pushtechnology/adapters/rest/metrics/reporting/topics/TopicBasedMetricsReporter.java:87-103 | the reporter's topics are removed; then the held task, if any, is cancelled; afterwards no task is held |
| TopicMetricsReporter.BeginReportingIdempotent | metrics/topic-based-metrics-reporting/src/main/java/com/pushtechnology/adapters/rest/metrics/reporting/topics/TopicBasedMetricsReporter.java:151-154 | beginning to report twice schedules only once |
| TopicMetricsReporter.RepeatedSuccessSchedulesOnce | metrics/topic-based-metrics-reporting/src/main/java/com/pushtechnology/adapters/rest/metrics/reporting/topics/TopicBasedMetricsReporter.java:151-154 | however often success is reported, one task is scheduled |
| TopicMetricsReporter.ReportingAfterCloseIsFresh | metrics/topic-based-metrics-reporting/src/main/java/com/pushtechnology/adapters/rest/metrics/reporting/topics/TopicBasedMetricsReporter.java:87-165 | after `close`, beginning to report schedules a new task |
| TopicMetricsReporter.Reporter.constructor | metrics/topic-based-metrics-reporting/src/main/java/com/pushtechnology/adapters/rest/metrics/reporting/topics/TopicBasedMetricsReporter.java:62-72 | a new reporter holds no task and has no effect yet |
| TopicMetricsReporter.Reporter.Start | metrics/topic-based-metrics-reporting/src/main/java/com/pushtechnology/adapters/rest/metrics/reporting/topics/TopicBasedMetricsReporter.java:78-83 | the poll topic under the root is requested, with a callback waiting only for it |
| TopicMetricsReporter.Reporter.Close | metrics/topic-based-metrics-reporting/src/main/java/com/pushtechnology/adapters/rest/metrics/reporting/topics/TopicBasedMetricsReporter.java:87-103 | the fields and effects change as `close` says |
| TopicMetricsReporter.Reporter.BeginReporting | metrics/topic-based-metrics-reporting/src/main/java/com/pushtechnology/adapters/rest/metrics/reporting/topics/TopicBasedMetricsReporter.java:151-165 | the fields and effects change as beginning to report says |
| TopicMetricsReporter.Reporter.ReportPollEvents | metrics/topic-based-metrics-reporting/src/main/java/com/pushtechnology/adapters/rest/metrics/reporting/topics/TopicBasedMetricsReporter.java:167-189 | with a percentile, the poll topic is updated with it as JSON; without one nothing happens |
| TopicMetricsReporter.AddCallback.constructor | metrics/topic-based-metrics-reporting/src/main/java/com/pushtechnology/adapters/rest/metrics/reporting/topics/TopicBasedMetricsReporter.java:108-112 | a new callback waits for every requested path and has no failure |
| TopicMetricsReporter.AddCallback.Run | metrics/topic-based-metrics-reporting/src/main/java/com/pushtechnology/adapters/rest/metrics/reporting/topics/TopicBasedMetricsReporter.java:136-145 | success begins reporting, failure closes the reporter, no verdict does nothing |
| TopicMetricsReporter.AddCallback.OnEvent | metrics/topic-based-metrics-reporting/src/main/java/com/pushtechnology/adapters/rest/metrics/reporting/topics/TopicBasedMetricsReporter.java:114-133 | the callback's sets change as the event says, and the reporter acts on the resulting verdict |
| TopicMetricsReporter.ExistingTopicStartsReporting | metrics/topic-based-metrics-reporting/src/main/java/com/pushtechnology/adapters/rest/metrics/reporting/topics/TopicBasedMetricsReporter.java:78-189 | an existing poll topic starts reporting: one task, one update, then removal and cancellation on close |
| V11Converter.ConvertEndpoint | configuration-model-conversion/src/main/java/com/pushtechnology/adapters/rest/model/conversion/V11Converter.java:61-71 | name, URL, topic path and produced type are copied |
| V11Converter.ConvertSecurity | configuration-model-conversion/src/main/java/com/pushtechnology/adapters/rest/model/conversion/V11Converter.java:74-85 | basic authentication is kept exactly when the service has it, with principal and credential copied |
| V11Converter.ConvertService | configuration-model-conversion/src/main/java/com/pushtechnology/adapters/rest/model/conversion/V11Converter.java:52-87 | the name joins host, port and secure flag; the fields are copied; each endpoint is converted in order; a security section is always present |
| V11Converter.ConvertDiffusion | configuration-model-conversion/src/main/java/com/pushtechnology/adapters/rest/model/conversion/V11Converter.java:88-101 | host, port, secure flag, principal and password are copied; the session settings take their defaults |
| V11Converter.Convert | configuration-model-conversion/src/main/java/com/pushtechnology/adapters/rest/model/conversion/V11Converter.java:48-104 | a model of another version is refused; conversion succeeds exactly when the service list and Diffusion section are present; the result is active, with every service converted in order, the Diffusion section converted and the truststore copied |
| V11Converter.ServiceNameInjective | configuration-model-conversion/src/main/java/com/pushtechnology/adapters/rest/model/conversion/V11Converter.java:57 | equal service names mean equal host, port and secure flag (the name splits back at its last two colons) |
| V11Converter.ConvertedNamesDistinct | configuration-model-conversion/src/main/java/com/pushtechnology/adapters/rest/model/conversion/V11Converter.java:52-87 | services with distinct host, port or secure flag keep distinct names |
| V11Converter.TotalEndpointsKept | configuration-model-conversion/src/main/java/com/pushtechnology/adapters/rest/model/conversion/V11Converter.java:61-71 | converted services have as many endpoints in total as the originals |
| V11Converter.ConvertKeepsEndpointCount | configuration-model-conversion/src/main/java/com/pushtechnology/adapters/rest/model/conversion/V11Converter.java:48-104 | conversion keeps the total number of endpoints |
| V11Converter.ConvertLosesOnlyMissingSecurity | configuration-model-conversion/src/main/java/com/pushtechnology/adapters/rest/model/conversion/V11Converter.java:74-85 | two models with the same conversion differ at most in a missing security section versus one without basic authentication |
| V11Converter.ConvertServiceLosesOnlyMissingSecurity | configuration-model-conversion/src/main/java/com/pushtechnology/adapters/rest/model/conversion/V11Converter.java:74-85 | two services with the same conversion differ at most in a missing security section versus one without basic authentication |
| V3Converter.ConvertEndpoint | configuration-model-conversion/src/main/java/com/pushtechnology/adapters/rest/model/conversion/V3Converter.java:56-65 | name, URL and topic are copied |
| V3Converter.ConvertService | configuration-model-conversion/src/main/java/com/pushtechnology/adapters/rest/model/conversion/V3Converter.java:49-68 | host, port and poll period are copied and every endpoint converted in order |
| V3Converter.Convert | configuration-model-conversion/src/main/java/com/pushtechnology/adapters/rest/model/conversion/V3Converter.java:46-75 | a model of another version is refused; conversion succeeds exactly when the service list and Diffusion section are present, and converts every service in order and the Diffusion host and port |
| V3Converter.ConvertIsLossless | configuration-model-conversion/src/main/java/com/pushtechnology/adapters/rest/model/conversion/V3Converter.java:46-75 | every field read from a version 3 model can be read back from its conversion |
| V3Converter.ConvertInjective | configuration-model-conversion/src/main/java/com/pushtechnology/adapters/rest/model/conversion/V3Converter.java:46-75 | two version 3 models with the same conversion are the same model |
| Events.LongSub | metrics/metrics-events/src/main/kotlin/events.kt:49-50 | `Long` subtraction: equal to the exact difference modulo 2^64, and exactly it when it fits |
| Events.TopicCreationSuccessTime | metrics/metrics-events/src/main/kotlin/events.kt:49-50 | the creation time is the success timestamp minus the request timestamp whenever that fits in a `Long` |
| Events.TopicCreationFailedTime | metrics/metrics-events/src/main/kotlin/events.kt:75-76 | the failure time is the failure timestamp minus the request timestamp whenever that fits in a `Long` |
| Events.PollSuccessTime | metrics/metrics-events/src/main/kotlin/events.kt:120-121 | the poll time is the success timestamp minus the request timestamp whenever that fits in a `Long` |
| Events.PollFailedTime | metrics/metrics-events/src/main/kotlin/events.kt:146-147 | the failure time is the failure timestamp minus the request timestamp whenever that fits in a `Long` |
| Events.RequestTimeNonNegative | metrics/metrics-events/src/main/kotlin/events.kt:49-50 | within range, the time is non-negative exactly when the outcome is no earlier than the request |
| Events.ClockReadingsFit | metrics/metrics-events/src/main/kotlin/events.kt:49-50 | for non-negative timestamps the difference never wraps |
| Events.WrapsOutOfRange | metrics/metrics-events/src/main/kotlin/events.kt:49-50 | out of range it wraps: an outcome later than its request can report a negative time |
| Events.OutcomeKindsAgree | metrics/metrics-events/src/main/kotlin/events.kt:36-148 | the four outcome events report the same time for the same request timestamp and outcome timestamp |
| InternalAdapter.TruststoreChangedIsInequality | adapter/src/main/java/com/pushtechnology/adapters/rest/adapter/InternalRESTAdapter.java:289-292 | the truststore check is null-safe: it holds exactly when the two truststores differ |
| InternalAdapter.HasTruststoreChanged | adapter/src/main/java/com/pushtechnology/adapters/rest/adapter/InternalRESTAdapter.java:289-292 | `hasTruststoreChanged` as written, null-safe; shown to be plain inequality by `TruststoreChangedIsInequality` |
| InternalAdapter.HasServiceSecurityChanged | adapter/src/main/java/com/pushtechnology/adapters/rest/adapter/InternalRESTAdapter.java:294-309 | `hasServiceSecurityChanged`: the basic-authentication lists of the current and new services differ |
| InternalAdapter.ChooseBranch | adapter/src/main/java/com/pushtechnology/adapters/rest/adapter/InternalRESTAdapter.java:113-167 | the ordered checks of `onReconfiguration`, including the null dereferences of the current model and its Diffusion and service sections; each branch's guard is stated by the lemmas below |
| InternalAdapter.ShutdownPolling | adapter/src/main/java/com/pushtechnology/adapters/rest/adapter/InternalRESTAdapter.java:183-188 | the service manager and endpoint client are closed only when ACTIVE |
| InternalAdapter.ShutdownSession | adapter/src/main/java/com/pushtechnology/adapters/rest/adapter/InternalRESTAdapter.java:190-196 | polling shut down, then the session closed when ACTIVE or STANDBY, a fault when that session is null |
| InternalAdapter.ReconfigureMetrics | adapter/src/main/java/com/pushtechnology/adapters/rest/adapter/InternalRESTAdapter.java:252-263 | the metrics provider is closed if present, then one is started from the current model's metrics settings |
| InternalAdapter.MetricsIfChanged | adapter/src/main/java/com/pushtechnology/adapters/rest/adapter/InternalRESTAdapter.java:325-330 | metrics are restarted only when the new model's metrics settings differ from the current one's |
| InternalAdapter.DeactivateStep | adapter/src/main/java/com/pushtechnology/adapters/rest/adapter/InternalRESTAdapter.java:116-126 | an inactive model: the session is torn down; STOPPING while connecting, otherwise STOPPED with the shutdown handler run; stated by `InactiveModelStops` |
| InternalAdapter.InitialiseStep | adapter/src/main/java/com/pushtechnology/adapters/rest/adapter/InternalRESTAdapter.java:127-131 | the first active model: stored, metrics started from it, CONNECTING with its Diffusion settings and truststore; stated by `InitialModelConnects` |
| InternalAdapter.StandbyStep | adapter/src/main/java/com/pushtechnology/adapters/rest/adapter/InternalRESTAdapter.java:132-140 | nothing to poll: metrics if changed, the model stored, polling shut down when ACTIVE, STANDBY; stated by `NotPollingGoesStandby` |
| InternalAdapter.ReconnectStep | adapter/src/main/java/com/pushtechnology/adapters/rest/adapter/InternalRESTAdapter.java:141-149 | a changed truststore or Diffusion section: metrics if changed, the model stored, the session torn down, CONNECTING again; stated by `ChangedConnectionReconnects` |
| InternalAdapter.ActivateStep | adapter/src/main/java/com/pushtechnology/adapters/rest/adapter/InternalRESTAdapter.java:150-159 | STANDBY or changed services: metrics if changed, the model stored, ACTIVE, services rebuilt; stated by `ActivatesOnStandbyOrServiceChange` |
| InternalAdapter.Reconfigure | adapter/src/main/java/com/pushtechnology/adapters/rest/adapter/InternalRESTAdapter.java:113-167 | `onReconfiguration`: the step of the branch `ChooseBranch` picks; the model is stored unless inactive (`ModelStoredUnlessInactive`) |
| InternalAdapter.SessionOpen | adapter/src/main/java/com/pushtechnology/adapters/rest/adapter/InternalRESTAdapter.java:199-229 | `onSessionOpen`: from STOPPING the session is closed and the adapter stops, otherwise STANDBY or ACTIVE by whether the model polls; stated by `SessionOpenOutcome` |
| InternalAdapter.SessionLostStep | adapter/src/main/java/com/pushtechnology/adapters/rest/adapter/InternalRESTAdapter.java:266-269 | `onSessionLost`: polling and the session torn down, then RECOVERING; stated by `SessionLostRecovers` |
| InternalAdapter.SessionClosedStep | adapter/src/main/java/com/pushtechnology/adapters/rest/adapter/InternalRESTAdapter.java:272-275 | `onSessionClosed`: the session forgotten, RECOVERING, no effect; stated by `SessionClosedForgets` |
| InternalAdapter.CloseStep | adapter/src/main/java/com/pushtechnology/adapters/rest/adapter/InternalRESTAdapter.java:333-357 | `close`: nothing when stopping or stopped, STOPPING while connecting, otherwise teardown then STOPPED and the shutdown handler; stated by `CloseOutcome` and `CloseShutsDownOnce` |
| InternalAdapter.InactiveModelStops | adapter/src/main/java/com/pushtechnology/adapters/rest/adapter/InternalRESTAdapter.java:116-126 | an inactive model tears the session down and, while connecting, defers to STOPPING; otherwise STOPPED with the shutdown handler run; the model is not stored |
| InternalAdapter.InitialModelConnects | adapter/src/main/java/com/pushtechnology/adapters/rest/adapter/InternalRESTAdapter.java:127-131 | from INIT an active model is stored, metrics start from it, and the adapter connects with its Diffusion settings and truststore |
| InternalAdapter.NotPollingGoesStandby | adapter/src/main/java/com/pushtechnology/adapters/rest/adapter/InternalRESTAdapter.java:132-140 | a model with nothing to poll is stored, polling is shut down only when ACTIVE, and the adapter goes to STANDBY keeping its session |
| InternalAdapter.ChangedConnectionReconnects | adapter/src/main/java/com/pushtechnology/adapters/rest/adapter/InternalRESTAdapter.java:141-149 | a changed truststore or Diffusion configuration closes the session when ACTIVE or STANDBY and reconnects with the new settings |
| InternalAdapter.MissingDiffusionThrows | adapter/src/main/java/com/pushtechnology/adapters/rest/adapter/InternalRESTAdapter.java:312-316 | with no current Diffusion configuration the Diffusion check throws and nothing changes |
| InternalAdapter.ActivatesOnStandbyOrServiceChange | adapter/src/main/java/com/pushtechnology/adapters/rest/adapter/InternalRESTAdapter.java:150-166 | with the connection unchanged: STANDBY, or ACTIVE with changed services or basic-authentication list, becomes ACTIVE and rebuilds the services; otherwise the state stays and nothing is rebuilt |
| InternalAdapter.ModelStoredUnlessInactive | adapter/src/main/java/com/pushtechnology/adapters/rest/adapter/InternalRESTAdapter.java:113-167 | every active model that does not throw becomes the current model; an inactive one never does |
| InternalAdapter.MetricsRestartUsesPreviousModel | adapter/src/main/java/com/pushtechnology/adapters/rest/adapter/InternalRESTAdapter.java:132-159 | in the standby, reconnect and activate branches a metrics change restarts metrics from the previous model's settings, never the new one's |
| InternalAdapter.MetricsOnlyKeepsState | adapter/src/main/java/com/pushtechnology/adapters/rest/adapter/InternalRESTAdapter.java:160-163 | a metrics-only change restarts metrics from the new model and keeps the state and the session |
| InternalAdapter.SessionOpenOutcome | adapter/src/main/java/com/pushtechnology/adapters/rest/adapter/InternalRESTAdapter.java:199-229 | when STOPPING the new session is closed and the adapter shuts down; otherwise it keeps the session and goes to STANDBY or ACTIVE as the current model polls |
| InternalAdapter.SessionLostRecovers | adapter/src/main/java/com/pushtechnology/adapters/rest/adapter/InternalRESTAdapter.java:266-269 | a lost session tears polling and the session down and moves to RECOVERING |
| InternalAdapter.SessionClosedForgets | adapter/src/main/java/com/pushtechnology/adapters/rest/adapter/InternalRESTAdapter.java:272-275 | a closed session is forgotten and the adapter moves to RECOVERING with no effect |
| InternalAdapter.CloseOutcome | adapter/src/main/java/com/pushtechnology/adapters/rest/adapter/InternalRESTAdapter.java:333-357 | `close` does nothing when stopping or stopped, defers to STOPPING while connecting, and otherwise tears down and stops |
| InternalAdapter.CloseShutsDownOnce | adapter/src/main/java/com/pushtechnology/adapters/rest/adapter/InternalRESTAdapter.java:333-357 | a `close` that reaches STOPPED runs the shutdown handler exactly once |
| InternalAdapter.ShutdownOnlyWhenStopped | adapter/src/main/java/com/pushtechnology/adapters/rest/adapter/InternalRESTAdapter.java:113-357 | the shutdown handler only runs in a step that leaves the adapter STOPPED |
| InternalAdapter.ClosedAdapterStaysQuiet | adapter/src/main/java/com/pushtechnology/adapters/rest/adapter/InternalRESTAdapter.java:333-336 | any number of `close` calls on a stopping or stopped adapter do nothing |
| InternalAdapter.RepeatedCloseShutsDownOnce | adapter/src/main/java/com/pushtechnology/adapters/rest/adapter/InternalRESTAdapter.java:333-357 | however often `close` is called, the shutdown handler runs at most once |
| InternalAdapter.Adapter.constructor | adapter/src/main/java/com/pushtechnology/adapters/rest/adapter/InternalRESTAdapter.java:113-357 | a new adapter is in INIT with no model, no session and no effect yet |
| InternalAdapter.Adapter.ShutdownPollingNow | adapter/src/main/java/com/pushtechnology/adapters/rest/adapter/InternalRESTAdapter.java:183-188 | the service manager and endpoint client are closed only when ACTIVE |
| InternalAdapter.Adapter.ShutdownSessionNow | adapter/src/main/java/com/pushtechnology/adapters/rest/adapter/InternalRESTAdapter.java:190-196 | polling is shut down, then the session is closed when ACTIVE or STANDBY; with no session that throws |
| InternalAdapter.Adapter.ConnectSession | adapter/src/main/java/com/pushtechnology/adapters/rest/adapter/InternalRESTAdapter.java:170-181 | the adapter moves to connecting and opens a session with the model's Diffusion settings and truststore |
| InternalAdapter.Adapter.ReconfigureMetricsReporting | adapter/src/main/java/com/pushtechnology/adapters/rest/adapter/InternalRESTAdapter.java:252-263 | the metrics provider is closed and a new one started from the current model's metrics settings |
| InternalAdapter.Adapter.ReconfigureServiceManager | adapter/src/main/java/com/pushtechnology/adapters/rest/adapter/InternalRESTAdapter.java:231-250 | the services are rebuilt from the current model |
| InternalAdapter.Adapter.MetricsIfChangedNow | adapter/src/main/java/com/pushtechnology/adapters/rest/adapter/InternalRESTAdapter.java:325-330 | metrics are restarted exactly when the metrics settings changed |
| InternalAdapter.Adapter.DeactivateNow | adapter/src/main/java/com/pushtechnology/adapters/rest/adapter/InternalRESTAdapter.java:116-126 | the fields and effects change as the inactive branch says |
| InternalAdapter.Adapter.GoStandbyNow | adapter/src/main/java/com/pushtechnology/adapters/rest/adapter/InternalRESTAdapter.java:132-140 | the fields and effects change as the not-polling branch says |
| InternalAdapter.Adapter.ReconnectNow | adapter/src/main/java/com/pushtechnology/adapters/rest/adapter/InternalRESTAdapter.java:141-149 | the fields and effects change as the reconnect branch says |
| InternalAdapter.Adapter.ActivateNow | adapter/src/main/java/com/pushtechnology/adapters/rest/adapter/InternalRESTAdapter.java:150-159 | the fields and effects change as the activate branch says |
| InternalAdapter.Adapter.OnReconfiguration | adapter/src/main/java/com/pushtechnology/adapters/rest/adapter/InternalRESTAdapter.java:113-167 | the fields, effects and exception are those of the branch the ordered checks choose |
| InternalAdapter.Adapter.OnSessionOpen | adapter/src/main/java/com/pushtechnology/adapters/rest/adapter/InternalRESTAdapter.java:199-229 | the fields, effects and exception are those of `onSessionOpen` |
| InternalAdapter.Adapter.OnSessionLost | adapter/src/main/java/com/pushtechnology/adapters/rest/adapter/InternalRESTAdapter.java:266-269 | the fields, effects and exception are those of `onSessionLost` |
| InternalAdapter.Adapter.OnSessionClosed | adapter/src/main/java/com/pushtechnology/adapters/rest/adapter/InternalRESTAdapter.java:272-275 | the session is forgotten and the state becomes RECOVERING with no effect |
| InternalAdapter.Adapter.Close | adapter/src/main/java/com/pushtechnology/adapters/rest/adapter/InternalRESTAdapter.java:333-357 | the fields, effects and exception are those of `close` |
| RestAdapter.TruststoreChanged | adapter/src/main/java/com/pushtechnology/adapters/rest/adapter/RESTAdapter.java:320-323 | the truststore check throws exactly when both truststores are missing, and otherwise holds exactly when they differ |
| RestAdapter.WasInactive | adapter/src/main/java/com/pushtechnology/adapters/rest/adapter/RESTAdapter.java:313-318 | `wasInactive`: the HTTP, Diffusion or services container is missing |
| RestAdapter.SecurityChanged | adapter/src/main/java/com/pushtechnology/adapters/rest/adapter/RESTAdapter.java:325-341 | `hasSecurityChanged`: the basic-authentication lists of the current and new services differ, absent where a service list is null |
| RestAdapter.DiffusionChanged | adapter/src/main/java/com/pushtechnology/adapters/rest/adapter/RESTAdapter.java:343-347 | `hasDiffusionChanged`: the current Diffusion section is missing or differs from the new one |
| RestAdapter.HaveServicesChanged | adapter/src/main/java/com/pushtechnology/adapters/rest/adapter/RESTAdapter.java:349-354 | `haveServicesChanged` as written, reading the new model's list twice; always true by `HaveServicesChangedAlwaysHolds` |
| RestAdapter.ChooseAction | adapter/src/main/java/com/pushtechnology/adapters/rest/adapter/RESTAdapter.java:98-126 | the ordered if-chain of `reconfigure`, with the null dereferences as an action of their own; each guard is stated by `RestAdapter.ActionOrder` |
| RestAdapter.InitialStep | adapter/src/main/java/com/pushtechnology/adapters/rest/adapter/RESTAdapter.java:129-140 | `initialConfiguration`: a new started tree of four containers for a model that polls, nothing otherwise |
| RestAdapter.SwitchToInactiveStep | adapter/src/main/java/com/pushtechnology/adapters/rest/adapter/RESTAdapter.java:143-153 | `switchToInactiveComponents`: the top level disposed of and all four containers forgotten; stated by `SwitchToInactiveClears` |
| RestAdapter.ReplaceAllStep | adapter/src/main/java/com/pushtechnology/adapters/rest/adapter/RESTAdapter.java:156-171 | `reconfigureAll`: a new tree created and started, then the old top level disposed of |
| RestAdapter.ReplaceSecurityStep | adapter/src/main/java/com/pushtechnology/adapters/rest/adapter/RESTAdapter.java:174-189 | `reconfigureSecurity`: new HTTP, Diffusion and services containers under the same top level, started, then the old HTTP container retired |
| RestAdapter.ReplacePollingStep | adapter/src/main/java/com/pushtechnology/adapters/rest/adapter/RESTAdapter.java:192-206 | `reconfigurePollingAndPublishing`: new Diffusion and services containers under the same HTTP container, started, then the old Diffusion container retired |
| RestAdapter.ReplaceServicesStep | adapter/src/main/java/com/pushtechnology/adapters/rest/adapter/RESTAdapter.java:209-221 | `reconfigureServices`: a new services container under the same Diffusion container, started, then the old one retired |
| RestAdapter.ReconfigureStep | adapter/src/main/java/com/pushtechnology/adapters/rest/adapter/RESTAdapter.java:98-126 | `reconfigure`: the shutdown task for an inactive model, otherwise the chosen action's step and the model stored; stated by `ReconfigureKeepsValid`, `ModelStoredUnlessShutdown` and `ReplacementStartsBeforeDisposing` |
| RestAdapter.HaveServicesChangedAlwaysHolds | adapter/src/main/java/com/pushtechnology/adapters/rest/adapter/RESTAdapter.java:349-354 | the services check compares the new model's list with itself, so it holds for every model |
| RestAdapter.Creations | adapter/src/main/java/com/pushtechnology/adapters/rest/adapter/RESTAdapter.java:224-294 | a new tree creates one container per kind, numbered consecutively, each a child of the one before it |
| RestAdapter.ReconfigureKeepsValid | adapter/src/main/java/com/pushtechnology/adapters/rest/adapter/RESTAdapter.java:98-126 | every reconfiguration keeps the four containers all present or all absent, numbered from those handed out, and built for a model that polls |
| RestAdapter.InactiveModelShutsDown | adapter/src/main/java/com/pushtechnology/adapters/rest/adapter/RESTAdapter.java:98-126 | an inactive model runs the shutdown task and leaves every field as it was |
| RestAdapter.ModelStoredUnlessShutdown | adapter/src/main/java/com/pushtechnology/adapters/rest/adapter/RESTAdapter.java:98-126 | every call that neither shuts down nor throws stores the new model |
| RestAdapter.ActionOrder | adapter/src/main/java/com/pushtechnology/adapters/rest/adapter/RESTAdapter.java:98-126 | the guard of every action, including the security, Diffusion and null-dereference ones, in the order the chain tries them |
| RestAdapter.NeverKeepsComponents | adapter/src/main/java/com/pushtechnology/adapters/rest/adapter/RESTAdapter.java:98-126 | because the services check always holds, the chain never keeps the current components |
| RestAdapter.MissingTruststoresThrow | adapter/src/main/java/com/pushtechnology/adapters/rest/adapter/RESTAdapter.java:320-323 | with live containers, a model that polls and no truststore on either side, `reconfigure` throws and changes nothing |
| RestAdapter.OnlyTruststoreThrows | adapter/src/main/java/com/pushtechnology/adapters/rest/adapter/RESTAdapter.java:98-126 | under the container invariant, that truststore dereference is the only way `reconfigure` throws |
| RestAdapter.SwitchToInactiveClears | adapter/src/main/java/com/pushtechnology/adapters/rest/adapter/RESTAdapter.java:143-153 | switching to inactive disposes of the top level and forgets all four containers |
| RestAdapter.RetireOnlyDisposes | adapter/src/main/java/com/pushtechnology/adapters/rest/adapter/RESTAdapter.java:156-221 | retiring a container only disposes of it and removes it from its parent |
| RestAdapter.ReplacementStartsBeforeDisposing | adapter/src/main/java/com/pushtechnology/adapters/rest/adapter/RESTAdapter.java:156-221 | each replacement creates the new containers and starts the new sub-tree before disposing of the previous container |
| RestAdapter.ShutdownTwiceDisposesTwice | adapter/src/main/java/com/pushtechnology/adapters/rest/adapter/RESTAdapter.java:78-91 | shutting down does not clear the containers, so a second shutdown disposes of the same top level again |
| RestAdapter.Adapter.constructor | adapter/src/main/java/com/pushtechnology/adapters/rest/adapter/RESTAdapter.java:98-126 | a new adapter has no model, no container and no effect yet, and satisfies the invariant |
| RestAdapter.Adapter.NewContainer | adapter/src/main/java/com/pushtechnology/adapters/rest/adapter/RESTAdapter.java:224-294 | a container is created below its parent with the next unused number |
| RestAdapter.Adapter.NewTree | adapter/src/main/java/com/pushtechnology/adapters/rest/adapter/RESTAdapter.java:224-294 | the four containers are created top to bottom, numbered consecutively |
| RestAdapter.Adapter.Dispose | adapter/src/main/java/com/pushtechnology/adapters/rest/adapter/RESTAdapter.java:156-221 | the previous container is disposed of and removed from its parent |
| RestAdapter.Adapter.Close | adapter/src/main/java/com/pushtechnology/adapters/rest/adapter/RESTAdapter.java:358-364 | the top level is disposed of unless the adapter is inactive; the fields stay |
| RestAdapter.Adapter.InitialConfigure | adapter/src/main/java/com/pushtechnology/adapters/rest/adapter/RESTAdapter.java:129-140 | the fields and effects change as the initial configuration says |
| RestAdapter.Adapter.SwitchToInactiveComponents | adapter/src/main/java/com/pushtechnology/adapters/rest/adapter/RESTAdapter.java:143-153 | the fields and effects change as switching to inactive says |
| RestAdapter.Adapter.ReconfigureAll | adapter/src/main/java/com/pushtechnology/adapters/rest/adapter/RESTAdapter.java:156-171 | the fields and effects change as replacing the whole tree says |
| RestAdapter.Adapter.ReconfigureSecurity | adapter/src/main/java/com/pushtechnology/adapters/rest/adapter/RESTAdapter.java:174-189 | the fields and effects change as replacing the HTTP sub-tree says |
| RestAdapter.Adapter.ReconfigurePollingAndPublishing | adapter/src/main/java/com/pushtechnology/adapters/rest/adapter/RESTAdapter.java:192-206 | the fields and effects change as replacing the Diffusion sub-tree says |
| RestAdapter.Adapter.ReconfigureServices | adapter/src/main/java/com/pushtechnology/adapters/rest/adapter/RESTAdapter.java:209-221 | the fields and effects change as replacing the services container says |
| RestAdapter.Adapter.Reconfigure | adapter/src/main/java/com/pushtechnology/adapters/rest/adapter/RESTAdapter.java:98-126 | the fields, effects and exception are those of the chosen action, and the container invariant is kept |

## Left out

- Concurrency: `synchronized`, `AtomicReference` and `volatile` are dropped. Each entry point is one
  atomic step, and interleavings are not modelled. This includes the unsynchronised
  `InternalRESTAdapter.close`.
- Real time: scheduling, cancelling and completing futures are trace effects carrying their delays,
  periods and units. No clock is modelled.
- Logging: log lines are not modelled. This includes the summary that `EventCountReporter`'s task
  logs, and the counters it reads.
- The broker, HTTP client and TLS: session factories, SSL contexts and the HTTP client factory are
  not part of this model. Their calls appear only as trace effects.
- Dependency injection: the picocontainer containers are identified by number. Their internal
  lifecycle beyond create, start, remove-child and dispose is not modelled.
- Parsers and encodings: the JSON, text and binary parsers of `EndpointType` are opaque, and so are
  `dataType.toBytes` (a length function parameter) and the Diffusion data types.
- Metrics JSON: `TopicMetricsReporter.PercentileJson` builds the same text as
  `TopicBasedMetricsReporter` from the 90th percentile. The percentile comes from the poll-event
  querier, which is not part of this model, so it is a parameter of `ReportPollEvents`. Parsing
  that text into a Diffusion JSON value is not modelled.
- The classification of `Session.State` (`isClosed`, `isRecovering`, `isConnected`) is a Diffusion
  library call. It is modelled by its observable partition of the states.
- The session-attribute defaults the V11 converter copies into the Diffusion configuration are a
  parameter of `V11Converter.Convert`, because their values live in the Diffusion library.
- The class check that refuses a model of another version lives in a base class that is not part
  of this model. It is modelled as a version tag on the input.
- The V3 converter's hand-over of its result to the next converter in the chain is not modelled.
  Only its own field mapping is.
- A null endpoint list inside a service, and a null element in any list, are not modelled. The
  fields that may be null are `Option`s: the service list, the Diffusion section, the truststore,
  a service's security section and its basic authentication, the Diffusion principal and
  password, and the metrics summary and topic sections.
- `ServiceReadyForPublishing` is not part of this model. The active callback is recorded as one
  effect carrying the service and its session.
- `BinaryUpdateContext` is a one-line delegate. It is the `sent` log of the abstract update context.
- The web interface, the Cloud Foundry entry points and the component factories are not part of
  this model.
- A closed HTTP client: after `EndpointClientImpl.close`, the HTTP library refuses `execute`
  with an IllegalStateException. That refusal belongs to the library and is not modelled; the
  model stops at the hand-over to the client.
- ServiceSessionImpl.Session.StartEndpoint: requires the endpoint to have no handle yet, as the
  `assert` at ServiceSessionImpl.java:86 demands. Java runs with assertions disabled by default;
  a handle that is already there would then be overwritten and its task left running.
- ServiceSessionImpl.Session.Start: requires every handle to be null, as that `assert` demands.
  A second `start` while running, which overwrites the handles and leaks the earlier tasks, is
  not modelled.
- ServiceSession.Session.StartEndpoint: requires the endpoint to be untracked, as the `assert`
  at ServiceSession.java:84 demands. With assertions disabled a tracked endpoint would get a
  second task and keep only the new handle.
- ServiceSession.Session.Start: requires a duplicate-free endpoint list that is not yet tracked.
  With assertions disabled, a duplicate endpoint schedules two tasks and keeps one handle, and a
  later `stop` then throws a NullPointerException at the second copy (ServiceSession.java:100).
- ServiceSession.Session.StopEndpoint: requires the endpoint to be tracked, as the `assert` at
  ServiceSession.java:98 demands. With assertions disabled an untracked endpoint makes it throw
  a NullPointerException.
- ServiceSession.Session.Stop: requires every endpoint of the list to be tracked and the list to
  be duplicate-free. So a `stop` after a `start` that threw (a poll period of zero or less), which
  throws a NullPointerException, is not modelled.
- ServiceSession.StartThenStop: composes `start` and `stop` under the same duplicate-free list,
  so it does not show the duplicate-endpoint failure above.
- The interfaces and their no-op listeners are not part of this model. Calls to them are effects.
