/**
 * Publisher and consumer together: what the consumer's getter reads back of
 * what the publisher's setter wrote once the broker has carried the message,
 * and the trace continuity that follows when the two propagators agree.
 */
module EndToEnd {
  import opened Wrappers
  import opened Utf8
  import opened Diagnostics
  import opened Telemetry
  import opened Rabbit
  import opened Publishing
  import opened Consuming

  /** The properties a consumer receives for headers a publisher sent. */
  function Delivered(headers: Option<Headers>): Option<DeliveredProperties> {
    Some(DeliveredProperties(Transmit(headers)))
  }

  /** One setter call, then the broker, then the getter: the consumer reads exactly the string written. */
  lemma HeaderRoundTrip(headers: Option<Headers>, key: string, value: string)
    ensures LookupHeader(Delivered(Some(HeadersAfterInject(headers, key, value))), key) == Found(value)
    ensures Values(LookupHeader(Delivered(Some(HeadersAfterInject(headers, key, value))), key)) == [value]
  {
    DecodeEncode(value);
  }

  /**
   * The getter reads byte arrays only: handed the setter's headers directly,
   * without the broker turning strings into bytes, it fails on the key.
   */
  lemma StringHeaderNotReadable(headers: Option<Headers>, key: string, value: string)
    ensures LookupHeader(Some(DeliveredProperties(Some(HeadersAfterInject(headers, key, value)))), key) == Failed
  {
  }

  /**
   * After all of a propagator's setter calls and the broker, a field the
   * extractor asks for is answered with the last value injected under it,
   * and a field that was not injected is answered as the original headers
   * would have answered it.
   */
  lemma FieldsRoundTrip(headers: Option<Headers>, fields: seq<HeaderField>, queried: seq<string>, k: string)
    requires k in queried
    ensures var answers := Answers(Delivered(HeadersAfterFields(headers, fields)), queried);
      && k in answers
      && (k in KeysOf(fields) ==> answers[k] == [LastValue(fields, k)])
      && (k !in KeysOf(fields) ==> answers[k] == Values(LookupHeader(Delivered(headers), k)))
  {
    var after := HeadersAfterFields(headers, fields);
    AnswersAreGetterValues(Delivered(after), queried, k);
    LastWriteWins(headers, fields);
    if k in KeysOf(fields) {
      DecodeEncode(LastValue(fields, k));
    }
  }

  /** Every injected field among `queried` is answered with its last injected value. */
  ghost predicate Carries(answers: map<string, seq<string>>, fields: seq<HeaderField>, queried: seq<string>) {
    forall k :: k in queried && k in KeysOf(fields) ==> k in answers && answers[k] == [LastValue(fields, k)]
  }

  /**
   * What end-to-end propagation needs of the publisher's and the consumer's
   * propagators (both outside this model): when the extractor is answered
   * with what the injector wrote for a valid context, it gives back that
   * context's trace id and span id.
   */
  ghost predicate Recovers(inject: Injector, extract: Extractor) {
    forall context: PropagationContext, answers: map<string, seq<string>> ::
      IsValid(context.activityContext) && Carries(answers, inject(context), extract.fields) ==>
        && extract.parse(DefaultPropagationContext, answers).activityContext.traceId == context.activityContext.traceId
        && extract.parse(DefaultPropagationContext, answers).activityContext.spanId == context.activityContext.spanId
  }

  /**
   * Under Recovers, what the consumer's extractor makes of the answers to a
   * message whose headers went through the publisher's setter calls for a
   * valid context is that context's trace id and span id, hence valid itself.
   */
  lemma PropagationRecovers(inject: Injector, extract: Extractor, headers: Option<Headers>,
                             context: PropagationContext)
    requires Recovers(inject, extract)
    requires IsValid(context.activityContext)
    ensures var parsed := extract.parse(DefaultPropagationContext,
        Answers(Delivered(HeadersAfterFields(headers, inject(context))), extract.fields)).activityContext;
      && parsed.traceId == context.activityContext.traceId
      && parsed.spanId == context.activityContext.spanId
      && IsValid(parsed)
  {
    var fields := inject(context);
    var answers := Answers(Delivered(HeadersAfterFields(headers, fields)), extract.fields);
    forall k | k in extract.fields && k in KeysOf(fields)
      ensures k in answers && answers[k] == [LastValue(fields, k)]
    {
      FieldsRoundTrip(headers, fields, extract.fields, k);
    }
    assert Carries(answers, fields, extract.fields);
  }

  /**
   * One message published and then consumed. When the publisher had a valid
   * context to inject (its own new activity's, or the ambient one when it
   * started none) and the consumer starts an activity, that activity joins
   * the same trace as a child of the injected span. In particular, when both
   * sides start an activity (as with a listener that samples everything),
   * the consumer's activity, which is Activity.Current while the message is
   * handled, is a child of the publisher's. And when an activity with a
   * valid context is current on the publishing side, the consumer's activity
   * is in that activity's trace, whether or not a producer span was started.
   */
  method PublishAndConsume(publisher: PublishingContext, consumer: ConsumingContext,
                           message: PublishingMessage, body: seq<byte>)
    returns (sent: Activity?, ghost injected: PropagationContext, received: ConsumingContextInstance)
    requires Writable(message.properties)
    requires Recovers(publisher.propagator, consumer.propagator)
    modifies message.properties, message.properties.headers, publisher.logger, publisher.ambient
    modifies consumer.logger, consumer.ambient
    ensures sent != null ==> injected.activityContext == sent.context && IsValid(injected.activityContext)
    ensures received.activity != null ==> consumer.ambient.current == received.activity
    ensures sent != null && received.activity != null ==>
      received.activity.context.traceId == sent.context.traceId &&
      received.activity.parentSpanId == sent.context.spanId
    ensures received.activity != null && IsValid(injected.activityContext) ==>
      received.activity.context.traceId == injected.activityContext.traceId &&
      received.activity.parentSpanId == injected.activityContext.spanId
    ensures sent == null && old(publisher.ambient.current) != null ==>
      injected.activityContext == old(publisher.ambient.current).context
    ensures (old(publisher.ambient.current) != null && IsValid(old(publisher.ambient.current).context) &&
             received.activity != null) ==>
      received.activity.context.traceId == old(publisher.ambient.current).context.traceId
  {
    ghost var before := message.properties.Headers();
    sent, injected := publisher.Set(message);
    var delivery := Delivery(message.exchange, message.routingKey, Delivered(message.properties.Headers()), body);
    received := consumer.Set(delivery);
    if IsValid(injected.activityContext) {
      PropagationRecovers(publisher.propagator, consumer.propagator, before, injected);
      assert consumer.ParentContext(delivery).activityContext != DefaultContext;
    }
  }
}
