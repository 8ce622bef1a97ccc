/**
 * The consuming interceptor (ConsumingContext): for each delivery it
 * extracts a trace context from the headers through its own carrier getter,
 * makes the extracted baggage the ambient baggage, starts a consumer
 * activity under the extracted context, tags it, opens a log scope keyed by
 * the trace id, and returns an instance that later ends both.
 */
module Consuming {
  import opened Wrappers
  import opened Utf8
  import opened Diagnostics
  import opened Logging
  import opened Telemetry
  import opened Rabbit
  import opened Messaging

  const ExtractFailureMessage := "Failed to extract trace context: {ex}"
  const MessageTag := "message"
  const ErrorTag := "error"
  const TraceIdKey := "TraceId"

  /** BasicDeliverEventArgs: routing data, the properties (possibly null) and the raw body. */
  datatype Delivery = Delivery(
    exchange: Option<string>,
    routingKey: Option<string>,
    properties: Option<DeliveredProperties>,
    body: seq<byte>)

  /** What one getter call finds: nothing, a decoded byte array, or a failure that is caught and logged. */
  datatype HeaderLookup = Missing | Found(text: string) | Failed

  /**
   * The lookup inside the carrier getter. Null headers or an absent key find
   * nothing; a byte array is decoded as UTF-8; anything else under the key
   * (a string, null, another object) makes `as byte[]` yield null, decoding
   * null throws, and the handler turns that into a failure, as it does for
   * null properties.
   */
  function LookupHeader(properties: Option<DeliveredProperties>, key: string): (r: HeaderLookup)
    ensures r.Failed? <==> (properties.None? ||
      (properties.value.headers.Some? && key in properties.value.headers.value &&
       !properties.value.headers.value[key].Bytes?))
    ensures r.Missing? <==> (properties.Some? &&
      (properties.value.headers.None? || key !in properties.value.headers.value))
    ensures r.Found? <==> (properties.Some? && properties.value.headers.Some? &&
      key in properties.value.headers.value && properties.value.headers.value[key].Bytes?)
    ensures r.Found? ==> r.text == Decode(properties.value.headers.value[key].bytes)
  {
    match properties
    case None => Failed
    case Some(props) =>
      match props.headers
      case None => Missing
      case Some(headers) =>
        if key !in headers then Missing
        else match headers[key]
          case Bytes(bytes) => Found(Decode(bytes))
          case _ => Failed
  }

  /** The getter's answer: one string when a byte array was found, none otherwise. */
  function Values(lookup: HeaderLookup): (values: seq<string>)
    ensures |values| <= 1
    ensures values != [] <==> lookup.Found?
    ensures lookup.Found? ==> values[0] == lookup.text
  {
    if lookup.Found? then [lookup.text] else []
  }

  /** The getter's answers for each of `fields`, as the extractor receives them. */
  function Answers(properties: Option<DeliveredProperties>, fields: seq<string>): map<string, seq<string>>
    decreases |fields|
  {
    if fields == [] then map[]
    else
      var init, last := fields[..|fields| - 1], fields[|fields| - 1];
      Answers(properties, init)[last := Values(LookupHeader(properties, last))]
  }

  /**
   * The extractor is answered for exactly the fields it names, and for each
   * with exactly what the getter returns for it.
   */
  lemma {:induction false} AnswersAreGetterValues(properties: Option<DeliveredProperties>, fields: seq<string>,
                                                  k: string)
    ensures k in Answers(properties, fields) <==> k in fields
    ensures k in fields ==> Answers(properties, fields)[k] == Values(LookupHeader(properties, k))
    decreases |fields|
  {
    if fields != [] {
      var init, last := fields[..|fields| - 1], fields[|fields| - 1];
      assert fields == init + [last];
      AnswersAreGetterValues(properties, init, k);
    }
  }

  /** How many of the getter calls for `fields` fail (and so log an error). */
  function FailureCount(properties: Option<DeliveredProperties>, fields: seq<string>): (n: nat)
    ensures n <= |fields|
    ensures properties.None? ==> n == |fields|
    decreases |fields|
  {
    if fields == [] then 0
    else
      FailureCount(properties, fields[..|fields| - 1])
        + (if LookupHeader(properties, fields[|fields| - 1]).Failed? then 1 else 0)
  }

  /** Answers and failures for one more field. */
  lemma QueryStep(properties: Option<DeliveredProperties>, fields: seq<string>, i: nat)
    requires i < |fields|
    ensures Answers(properties, fields[..i + 1])
         == Answers(properties, fields[..i])[fields[i] := Values(LookupHeader(properties, fields[i]))]
    ensures FailureCount(properties, fields[..i + 1]) == FailureCount(properties, fields[..i])
         + (if LookupHeader(properties, fields[i]).Failed? then 1 else 0)
    ensures Repeated(ExtractFailureMessage, FailureCount(properties, fields[..i + 1]))
         == Repeated(ExtractFailureMessage, FailureCount(properties, fields[..i]))
          + (if LookupHeader(properties, fields[i]).Failed? then [ExtractFailureMessage] else [])
  {
    assert fields[..i + 1][..i] == fields[..i];
  }

  /**
   * The single-entry dictionary handed to BeginScope: TraceId maps to the
   * activity's trace id as 32 lower-case hex digits, or to null when there is
   * no activity.
   */
  function LogScopeState(activity: Activity?): (state: ScopeState)
    ensures state.Keys == {TraceIdKey}
    ensures activity == null <==> state[TraceIdKey] == None
    ensures activity != null ==> state[TraceIdKey] == Some(ToHexString(activity.context.traceId))
    ensures activity != null ==> |state[TraceIdKey].value| == 32
  {
    map[TraceIdKey := if activity == null then None else Some(ToHexString(activity.context.traceId))]
  }

  /** Two log scopes with the same state belong to the same trace. */
  lemma LogScopeIdentifiesTrace(a: Activity, b: Activity)
    requires LogScopeState(a) == LogScopeState(b)
    ensures a.context.traceId == b.context.traceId
  {
    assert LogScopeState(a)[TraceIdKey] == LogScopeState(b)[TraceIdKey];
    ToHexStringInjective(a.context.traceId, b.context.traceId);
  }

  /** What IConsumingContextInstance.Dispose releases, in order. */
  datatype Released = ActivityStopped | ScopeClosed

  class ConsumingContextInstance {
    const activity: Activity?
    const logScope: LogScope?

    constructor (activity: Activity?, logScope: LogScope?)
      ensures this.activity == activity && this.logScope == logScope
    {
      this.activity := activity;
      this.logScope := logScope;
    }

    /** Stops the activity, then closes the log scope, skipping either when null. */
    method Dispose() returns (ghost released: seq<Released>)
      modifies activity, logScope
      ensures released == (if activity != null then [ActivityStopped] else [])
                        + (if logScope != null then [ScopeClosed] else [])
      ensures activity != null ==> activity.stopped && activity.tags == old(activity.tags)
      ensures logScope != null ==> logScope.disposed
    {
      released := [];
      if activity != null {
        activity.Dispose();
        released := released + [ActivityStopped];
      }
      if logScope != null {
        logScope.Dispose();
        released := released + [ScopeClosed];
      }
    }

    /** Marks the activity as failed; with no activity it does nothing. The exception itself is not used. */
    method NotifyUnhandledException()
      modifies activity
      ensures activity != null ==> ErrorTag in activity.tags && activity.tags[ErrorTag] == BoolTag(true)
      ensures activity != null ==> forall k :: k != ErrorTag ==>
        (k in activity.tags <==> k in old(activity.tags)) &&
        (k in activity.tags ==> activity.tags[k] == old(activity.tags)[k])
      ensures activity != null ==> activity.stopped == old(activity.stopped)
    {
      if activity != null {
        activity.SetTag(ErrorTag, Some(BoolTag(true)));
      }
    }
  }

  class ConsumingContext {
    const logger: Logger
    const ambient: Ambient
    const propagator: Extractor

    constructor (logger: Logger, ambient: Ambient, propagator: Extractor)
      ensures this.logger == logger && this.ambient == ambient && this.propagator == propagator
    {
      this.logger := logger;
      this.ambient := ambient;
      this.propagator := propagator;
    }

    /** The context Extract returns for a delivery: the extractor applied to the getter's answers. */
    function ParentContext(delivery: Delivery): (parent: PropagationContext)
      ensures exists answers: map<string, seq<string>> ::
        && parent == propagator.parse(DefaultPropagationContext, answers)
        && (forall k :: k in answers <==> k in propagator.fields)
        && (forall k :: k in answers ==> answers[k] == Values(LookupHeader(delivery.properties, k)))
    {
      var answers := Answers(delivery.properties, propagator.fields);
      assert forall k :: ((k in answers <==> k in propagator.fields) &&
        (k in answers ==> answers[k] == Values(LookupHeader(delivery.properties, k)))) by {
        forall k {
          AnswersAreGetterValues(delivery.properties, propagator.fields, k);
        }
      }
      propagator.parse(DefaultPropagationContext, answers)
    }

    /** The carrier getter: the lookup's answer, with an error logged when the lookup failed. */
    method ExtractTraceContextFromBasicProperties(properties: Option<DeliveredProperties>, key: string)
      returns (values: seq<string>)
      modifies logger
      ensures values == Values(LookupHeader(properties, key))
      ensures logger.errors == old(logger.errors) +
        (if LookupHeader(properties, key).Failed? then [ExtractFailureMessage] else [])
    {
      var lookup := LookupHeader(properties, key);
      if lookup.Failed? {
        logger.LogError(ExtractFailureMessage);
      }
      values := Values(lookup);
    }

    /** The getter calls Extract makes: one per field the extractor reads. */
    method QueryFields(properties: Option<DeliveredProperties>, fields: seq<string>)
      returns (answers: map<string, seq<string>>)
      modifies logger
      ensures answers == Answers(properties, fields)
      ensures logger.errors == old(logger.errors) + Repeated(ExtractFailureMessage, FailureCount(properties, fields))
    {
      answers := map[];
      var i := 0;
      while i < |fields|
        invariant 0 <= i <= |fields|
        invariant answers == Answers(properties, fields[..i])
        invariant logger.errors ==
          old(logger.errors) + Repeated(ExtractFailureMessage, FailureCount(properties, fields[..i]))
      {
        QueryStep(properties, fields, i);
        var values := ExtractTraceContextFromBasicProperties(properties, fields[i]);
        answers := answers[fields[i] := values];
        i := i + 1;
      }
      assert fields[..i] == fields;
    }

    /** CreateLogScope: opens a log scope whose state is LogScopeState(activity). */
    method CreateLogScope(activity: Activity?) returns (scope: LogScope)
      ensures fresh(scope) && !scope.disposed
      ensures scope.state == LogScopeState(activity)
    {
      scope := logger.BeginScope(LogScopeState(activity));
    }

    /**
     * Set: extracts the parent context, replaces the ambient baggage with the
     * extracted one, starts a consumer activity under the parent (a root when
     * the parent is not valid; it becomes the ambient current one), tags it with
     * the decoded body and the messaging attributes (only if it was started),
     * and returns an instance holding the activity and a fresh log scope.
     */
    method Set(delivery: Delivery) returns (instance: ConsumingContextInstance)
      modifies logger, ambient
      ensures fresh(instance)
      ensures ambient.baggage == ParentContext(delivery).baggage
      ensures ambient.current == (if instance.activity != null then instance.activity else old(ambient.current))
      ensures logger.errors == old(logger.errors) +
        Repeated(ExtractFailureMessage, FailureCount(delivery.properties, propagator.fields))
      ensures instance.activity != null ==> fresh(instance.activity) && !instance.activity.stopped
      ensures instance.activity != null ==>
        instance.activity.name == ActivityName(delivery.exchange, delivery.routingKey, ReceiveVerb)
      ensures instance.activity != null ==> instance.activity.kind == Consumer
      ensures instance.activity != null ==> IsValid(instance.activity.context)
      ensures (instance.activity != null &&
        IsValid(EffectiveParent(ParentContext(delivery).activityContext, old(ambient.current)))) ==>
        instance.activity.context.traceId ==
          EffectiveParent(ParentContext(delivery).activityContext, old(ambient.current)).traceId &&
        instance.activity.parentSpanId ==
          EffectiveParent(ParentContext(delivery).activityContext, old(ambient.current)).spanId
      ensures (instance.activity != null &&
        !IsValid(EffectiveParent(ParentContext(delivery).activityContext, old(ambient.current)))) ==>
        instance.activity.parentSpanId == ZeroSpanId
      ensures instance.activity != null ==>
        MessagingTagged(map[MessageTag := StringTag(Decode(delivery.body))], instance.activity.tags,
                        delivery.exchange, delivery.routingKey)
      ensures instance.logScope != null && fresh(instance.logScope) && !instance.logScope.disposed
      ensures instance.logScope.state == LogScopeState(instance.activity)
    {
      var answers := QueryFields(delivery.properties, propagator.fields);
      var parentContext := propagator.parse(DefaultPropagationContext, answers);
      ambient.baggage := parentContext.baggage;

      var name := ActivityName(delivery.exchange, delivery.routingKey, ReceiveVerb);
      var activity := ambient.StartActivity(name, Consumer, parentContext.activityContext);

      var message := Decode(delivery.body);
      if activity != null {
        activity.SetTag(MessageTag, Some(StringTag(message)));
      }
      AddMessagingTags(activity, delivery.exchange, delivery.routingKey);

      var scope := CreateLogScope(activity);
      instance := new ConsumingContextInstance(activity, scope);
    }
  }
}
