/**
 * The metrics events (events.kt): immutable records of topic-creation and poll
 * requests and of their outcomes. Each outcome event knows how long its request took:
 * the outcome's timestamp minus the request's, in 64-bit `Long` arithmetic, which
 * wraps around on overflow.
 */
module Events {
  import opened EndpointTypes
  import opened TopicManagement

  const TwoTo63: int := 0x8000_0000_0000_0000
  const TwoTo64: int := 0x1_0000_0000_0000_0000

  /** A Kotlin `Long`. */
  newtype Long = x: int | -0x8000_0000_0000_0000 <= x < 0x8000_0000_0000_0000

  /** A Kotlin `Int`. */
  newtype Int32 = x: int | -0x8000_0000 <= x < 0x8000_0000

  /** An opaque exception. */
  type Exception = nat

  /** `a - b` on `Long`: the exact difference, wrapped into the 64-bit range. */
  function LongSub(a: Long, b: Long): (r: Long)
    ensures (r as int - (a as int - b as int)) % TwoTo64 == 0
    ensures -TwoTo63 <= a as int - b as int < TwoTo63 ==> r as int == a as int - b as int
  {
    var d := a as int - b as int;
    (((d + TwoTo63) % TwoTo64) - TwoTo63) as Long
  }

  datatype TopicCreationRequestEvent = TopicCreationRequestEvent(
    path: string,
    topicType: TopicType,
    initialValueLength: Int32,
    requestTimestamp: Long)

  datatype TopicCreationSuccessEvent = TopicCreationSuccessEvent(
    requestEvent: TopicCreationRequestEvent,
    successTimestamp: Long)

  datatype TopicCreationFailedEvent = TopicCreationFailedEvent(
    requestEvent: TopicCreationRequestEvent,
    failReason: TopicAddFailReason,
    failedTimestamp: Long)

  datatype PollRequestEvent = PollRequestEvent(uri: string, requestTimestamp: Long)

  datatype PollSuccessEvent = PollSuccessEvent(
    requestEvent: PollRequestEvent,
    statusCode: Int32,
    responseLength: Long,
    successTimestamp: Long)

  datatype PollFailedEvent = PollFailedEvent(
    requestEvent: PollRequestEvent,
    exception: Exception,
    failedTimestamp: Long)

  /** The time from request to outcome, when it fits in a `Long`. */
  predicate Fits(outcome: Long, request: Long) {
    -TwoTo63 <= outcome as int - request as int < TwoTo63
  }

  function TopicCreationSuccessTime(e: TopicCreationSuccessEvent): (r: Long)
    ensures Fits(e.successTimestamp, e.requestEvent.requestTimestamp) ==>
      r as int == e.successTimestamp as int - e.requestEvent.requestTimestamp as int
  {
    LongSub(e.successTimestamp, e.requestEvent.requestTimestamp)
  }

  function TopicCreationFailedTime(e: TopicCreationFailedEvent): (r: Long)
    ensures Fits(e.failedTimestamp, e.requestEvent.requestTimestamp) ==>
      r as int == e.failedTimestamp as int - e.requestEvent.requestTimestamp as int
  {
    LongSub(e.failedTimestamp, e.requestEvent.requestTimestamp)
  }

  function PollSuccessTime(e: PollSuccessEvent): (r: Long)
    ensures Fits(e.successTimestamp, e.requestEvent.requestTimestamp) ==>
      r as int == e.successTimestamp as int - e.requestEvent.requestTimestamp as int
  {
    LongSub(e.successTimestamp, e.requestEvent.requestTimestamp)
  }

  function PollFailedTime(e: PollFailedEvent): (r: Long)
    ensures Fits(e.failedTimestamp, e.requestEvent.requestTimestamp) ==>
      r as int == e.failedTimestamp as int - e.requestEvent.requestTimestamp as int
  {
    LongSub(e.failedTimestamp, e.requestEvent.requestTimestamp)
  }

  /**
   * Within range, a request time is non-negative exactly when the outcome is no
   * earlier than the request.
   */
  lemma RequestTimeNonNegative(outcome: Long, request: Long)
    requires Fits(outcome, request)
    ensures LongSub(outcome, request) >= 0 <==> outcome >= request
  {
  }

  /** Clock readings are never negative, so their differences always fit and never wrap. */
  lemma ClockReadingsFit(outcome: Long, request: Long)
    requires outcome >= 0 && request >= 0
    ensures Fits(outcome, request)
    ensures LongSub(outcome, request) as int == outcome as int - request as int
  {
  }

  /**
   * Out of range the subtraction wraps: an outcome later than its request can still
   * report a negative time.
   */
  lemma WrapsOutOfRange()
    ensures var outcome, request := 1 as Long, (-TwoTo63) as Long;
      outcome >= request && LongSub(outcome, request) < 0
  {
    var outcome, request := 1 as Long, (-TwoTo63) as Long;
    assert outcome as int - request as int == TwoTo63 + 1;
    assert ((TwoTo63 + 1 + TwoTo63) % TwoTo64) == 1;
  }

  /**
   * The four getters all measure the same thing: an outcome event built from a request
   * event and a timestamp reports the same time whichever kind it is.
   */
  lemma OutcomeKindsAgree(request: TopicCreationRequestEvent, poll: PollRequestEvent, at: Long, reason: TopicAddFailReason,
                          status: Int32, length: Long, exception: Exception)
    requires poll.requestTimestamp == request.requestTimestamp
    ensures TopicCreationSuccessTime(TopicCreationSuccessEvent(request, at))
      == TopicCreationFailedTime(TopicCreationFailedEvent(request, reason, at))
      == PollSuccessTime(PollSuccessEvent(poll, status, length, at))
      == PollFailedTime(PollFailedEvent(poll, exception, at))
  {
  }
}
