/**
 * The topic management client (TopicManagementClientImpl): creates and removes the
 * Diffusion topic of an endpoint. The topic lives at the service's topic path root,
 * a slash, and the endpoint's topic path; its type comes from the endpoint type the
 * endpoint produces; it is removed automatically a minute after no session with the
 * adapter's principal remains. The outcome of the creation request is reported to the
 * topic creation listener, with failures classified by their cause.
 */
module TopicManagement {
  import opened Wrappers
  import opened Config
  import opened EndpointTypes

  /** The exceptions `addTopic` can fail with; anything else is `OtherCause`. */
  datatype Cause =
    | InvalidTopicPath
    | IncompatibleExistingTopic
    | TopicLicenseLimit
    | InvalidTopicSpecification
    | OtherCause

  /**
   * What a dependent stage of a future sees: a CompletionException wrapping a cause,
   * or an exception of the given kind delivered as is.
   */
  datatype Throwable = CompletionException(cause: Cause) | Raw(kind: Cause)

  datatype TopicAddFailReason =
    | INVALID_NAME
    | EXISTS_INCOMPATIBLE
    | EXCEEDED_LICENSE_LIMIT
    | INVALID_DETAILS
    | UNEXPECTED_ERROR

  /** What a successful `addTopic` reports; either is success. */
  datatype AddTopicResult = Created | Exists

  datatype TopicSpecification = TopicSpecification(topicType: TopicType, removal: string)

  datatype Effect =
    | CreationRequested(path: string, topicType: TopicType)
    | TopicAdded(path: string, specification: TopicSpecification)
    | TopicCreated
    | TopicCreationFailed(reason: TopicAddFailReason)
    | TopicsRemoved(selector: string)

  /** What `addEndpoint` does: throw before doing anything, or issue the request and complete. */
  datatype AddOutcome =
    | IllegalArgument(message: string)
    | Issued(effects: seq<Effect>, completion: Result<AddTopicResult, Throwable>)

  /** The topic of an endpoint: the service's root, a slash, then the endpoint's topic path. */
  function TopicPath(service: ServiceConfig, endpoint: EndpointConfig): (r: string)
    ensures |r| == |service.topicPathRoot| + 1 + |endpoint.topicPath|
    ensures StartsWith(r, service.topicPathRoot) && r[|service.topicPathRoot|] == '/'
    ensures r[|service.topicPathRoot| + 1..] == endpoint.topicPath
  {
    service.topicPathRoot + "/" + endpoint.topicPath
  }

  const RemovalPrefix := "when no session has \"$Principal eq '"
  const RemovalSuffix := "'\" for 1m"

  /**
   * The removal policy: the topic goes a minute after no session with this principal
   * remains. The principal is embedded verbatim, and can be read back from the policy.
   */
  function RemovalPolicy(principal: string): (r: string)
    ensures |r| == |RemovalPrefix| + |principal| + |RemovalSuffix|
    ensures StartsWith(r, RemovalPrefix)
    ensures r[|RemovalPrefix|..|r| - |RemovalSuffix|] == principal
    ensures r[|r| - |RemovalSuffix|..] == RemovalSuffix
  {
    RemovalPrefix + principal + RemovalSuffix
  }

  /**
   * How a dependent stage sees the exception of the future it depends on: an exception
   * that is not already a CompletionException arrives wrapped in one.
   */
  function Propagated(failure: Throwable): (r: Throwable)
    ensures r.CompletionException?
    ensures failure.CompletionException? ==> r == failure
    ensures failure.Raw? ==> r.cause == failure.kind
  {
    match failure
    case CompletionException(_) => failure
    case Raw(kind) => CompletionException(kind)
  }

  /** The `whenComplete` classification of a failure. */
  function FailReason(t: Throwable): (r: TopicAddFailReason)
    ensures r == INVALID_NAME <==> t == CompletionException(InvalidTopicPath)
    ensures r == EXISTS_INCOMPATIBLE <==> t == CompletionException(IncompatibleExistingTopic)
    ensures r == EXCEEDED_LICENSE_LIMIT <==> t == CompletionException(TopicLicenseLimit)
    ensures r == INVALID_DETAILS <==> t == CompletionException(InvalidTopicSpecification)
    ensures r == UNEXPECTED_ERROR <==> t.Raw? || t.cause == OtherCause
  {
    match t
    case CompletionException(cause) =>
      (match cause
       case InvalidTopicPath => INVALID_NAME
       case IncompatibleExistingTopic => EXISTS_INCOMPATIBLE
       case TopicLicenseLimit => EXCEEDED_LICENSE_LIMIT
       case InvalidTopicSpecification => INVALID_DETAILS
       case OtherCause => UNEXPECTED_ERROR)
    case Raw(_) => UNEXPECTED_ERROR
  }

  /**
   * `addTopic(path, specification)` with `result` the outcome of the Diffusion call:
   * the listener hears of the request, the topic is added, then success or the
   * classified failure is reported; the returned future completes as the call did.
   */
  function AddTopic(path: string, specification: TopicSpecification, result: Result<AddTopicResult, Throwable>)
    : (r: AddOutcome)
  {
    var requested := [CreationRequested(path, specification.topicType), TopicAdded(path, specification)];
    match result
    case Ok(x) => Issued(requested + [TopicCreated], Ok(x))
    case Err(failure) =>
      Issued(requested + [TopicCreationFailed(FailReason(Propagated(failure)))], Err(Propagated(failure)))
  }

  /** `addEndpoint`, on a session whose principal is `principal`. */
  function AddEndpoint(
    service: ServiceConfig, endpoint: EndpointConfig, principal: string,
    result: Result<AddTopicResult, Throwable>): (r: AddOutcome)
  {
    var path := TopicPath(service, endpoint);
    match From(endpoint.produces)
    case Err(message) => IllegalArgument(message)
    case Ok(t) => AddTopic(path, TopicSpecification(TopicTypeOf(t), RemovalPolicy(principal)), result)
  }

  /** `removeEndpoint`: removes the topics selected by the endpoint's path. */
  function RemoveEndpoint(service: ServiceConfig, endpoint: EndpointConfig): (r: seq<Effect>)
  {
    [TopicsRemoved(TopicPath(service, endpoint))]
  }

  /** An endpoint whose `produces` is not a registered identifier throws before any request. */
  lemma UnknownProducesThrows(
    service: ServiceConfig, endpoint: EndpointConfig, principal: string, result: Result<AddTopicResult, Throwable>)
    ensures AddEndpoint(service, endpoint, principal, result).IllegalArgument? <==> From(endpoint.produces).Err?
    ensures From(endpoint.produces).Err? ==>
      AddEndpoint(service, endpoint, principal, result).message == "Unknown endpoint type " + endpoint.produces
  {
  }

  /**
   * A request that is issued creates the endpoint's own topic, with the type of the
   * endpoint type it produces and the principal's removal policy; the listener hears
   * of it exactly once, before `addTopic`, and `removeEndpoint` removes that same path.
   */
  lemma AddedTopicIsTheRemovedTopic(
    service: ServiceConfig, endpoint: EndpointConfig, principal: string, result: Result<AddTopicResult, Throwable>)
    requires From(endpoint.produces).Ok?
    ensures var r := AddEndpoint(service, endpoint, principal, result);
      && r.Issued?
      && |r.effects| == 3
      && r.effects[0] == CreationRequested(TopicPath(service, endpoint), TopicTypeOf(From(endpoint.produces).value))
      && r.effects[1] == TopicAdded(TopicPath(service, endpoint),
           TopicSpecification(TopicTypeOf(From(endpoint.produces).value), RemovalPolicy(principal)))
      && (forall i :: 1 <= i < 3 ==> !r.effects[i].CreationRequested?)
      && RemoveEndpoint(service, endpoint) == [TopicsRemoved(r.effects[1].path)]
  {
  }

  /** Whatever `AddTopicResult` it carries, success reports `onTopicCreated` and no failure. */
  lemma SuccessReportsCreated(path: string, specification: TopicSpecification, x: AddTopicResult)
    ensures AddTopic(path, specification, Ok(x)).effects[2] == TopicCreated
    ensures forall e :: e in AddTopic(path, specification, Ok(x)).effects ==> !e.TopicCreationFailed?
    ensures AddTopic(path, specification, Ok(x)).completion == Ok(x)
  {
  }

  /**
   * A failure of `addTopic` reaches `whenComplete` as a CompletionException, so the
   * reason is decided by the failure's own cause; `onTopicCreated` is never reported,
   * and the returned future fails too.
   */
  lemma FailureClassifiedByCause(path: string, specification: TopicSpecification, failure: Throwable)
    ensures var c := if failure.CompletionException? then failure.cause else failure.kind;
      && AddTopic(path, specification, Err(failure)).effects[2] == TopicCreationFailed(FailReason(CompletionException(c)))
      && AddTopic(path, specification, Err(failure)).completion == Err(CompletionException(c))
    ensures TopicCreated !in AddTopic(path, specification, Err(failure)).effects
  {
  }

  /** The failure of the client's own tests: a disconnected session is an unexpected error. */
  lemma DisconnectionIsUnexpected(path: string, specification: TopicSpecification)
    ensures AddTopic(path, specification, Err(CompletionException(OtherCause))).effects[2]
      == TopicCreationFailed(UNEXPECTED_ERROR)
  {
  }
}
