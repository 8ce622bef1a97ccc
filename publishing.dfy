/**
 * The publishing interceptor (PublishingContext): for each outgoing message
 * it starts a producer activity, injects a trace context into the message
 * headers through its own carrier setter, and tags the activity.
 */
module Publishing {
  import opened Wrappers
  import opened Diagnostics
  import opened Logging
  import opened Telemetry
  import opened Rabbit
  import opened Messaging

  const InjectFailureMessage := "Failed to inject trace context."

  /** RabbitPublishingMessage: where the message goes and its (mutable) properties, which may be null. */
  datatype PublishingMessage = PublishingMessage(
    exchange: Option<string>,
    routingKey: Option<string>,
    properties: BasicProperties?)

  /** The keys a sequence of setter calls writes. */
  function KeysOf(fields: seq<HeaderField>): set<string> {
    set f | f in fields :: f.key
  }

  /** The value of the last of `fields` written under `key`. */
  function LastValue(fields: seq<HeaderField>, key: string): (value: string)
    requires key in KeysOf(fields)
    ensures exists i :: (0 <= i < |fields| && fields[i] == HeaderField(key, value) &&
      (forall j :: i < j < |fields| ==> fields[j].key != key))
  {
    var last := fields[|fields| - 1];
    if last.key == key then last.value
    else
      assert key in KeysOf(fields[..|fields| - 1]) by {
        var f :| f in fields && f.key == key;
        var i :| 0 <= i < |fields| && fields[i] == f;
        assert fields[..|fields| - 1][i] == f;
      }
      LastValue(fields[..|fields| - 1], key)
  }

  /**
   * The headers after one setter call that did not throw: a null dictionary
   * is first replaced by an empty one, then the key is set to the string,
   * replacing whatever it held; every other entry stays as it was.
   */
  function HeadersAfterInject(headers: Option<Headers>, key: string, value: string): (after: Headers)
    ensures key in after && after[key] == Rabbit.Text(value)
    ensures forall k :: k != key ==> (k in after <==> headers.Some? && k in headers.value)
    ensures forall k :: k != key && k in after ==> after[k] == headers.value[k]
  {
    headers.GetOr(map[])[key := Rabbit.Text(value)]
  }

  /** The headers after a propagator's setter calls, made in order, none of them throwing. */
  function HeadersAfterFields(headers: Option<Headers>, fields: seq<HeaderField>): (after: Option<Headers>)
    ensures after.None? <==> headers.None? && fields == []
    decreases |fields|
  {
    if fields == [] then headers
    else
      var init, last := fields[..|fields| - 1], fields[|fields| - 1];
      Some(HeadersAfterInject(HeadersAfterFields(headers, init), last.key, last.value))
  }

  /**
   * After the setter calls each key written holds the last value written
   * under it, and every other key is as it was.
   */
  lemma {:induction false} LastWriteWins(headers: Option<Headers>, fields: seq<HeaderField>)
    ensures var after := HeadersAfterFields(headers, fields);
      && (forall k :: k in KeysOf(fields) ==>
            after.Some? && k in after.value && after.value[k] == Rabbit.Text(LastValue(fields, k)))
      && (forall k :: k !in KeysOf(fields) ==>
            (after.Some? && k in after.value <==> headers.Some? && k in headers.value))
      && (forall k :: k !in KeysOf(fields) && after.Some? && k in after.value ==>
            after.value[k] == headers.value[k])
    decreases |fields|
  {
    if fields != [] {
      var init, last := fields[..|fields| - 1], fields[|fields| - 1];
      assert KeysOf(fields) == KeysOf(init) + {last.key} by {
        assert fields == init + [last];
      }
      LastWriteWins(headers, init);
    }
  }

  /** Writing the same key and value a second time changes nothing. */
  lemma InjectIdempotent(headers: Option<Headers>, key: string, value: string)
    ensures HeadersAfterInject(Some(HeadersAfterInject(headers, key, value)), key, value)
         == HeadersAfterInject(headers, key, value)
  {
  }

  /** A setter call on these properties does not throw: they exist and their dictionary, if any, accepts writes. */
  ghost predicate Writable(props: BasicProperties?)
    reads props, if props != null then {props.headers} else {}
  {
    props != null && (props.headers == null || !props.headers.readOnly)
  }

  class PublishingContext {
    const logger: Logger
    const ambient: Ambient
    const propagator: Injector

    constructor (logger: Logger, ambient: Ambient, propagator: Injector)
      ensures this.logger == logger && this.ambient == ambient && this.propagator == propagator
    {
      this.logger := logger;
      this.ambient := ambient;
      this.propagator := propagator;
    }

    /**
     * The carrier setter. When it cannot write (no properties, or a read-only
     * dictionary) the failure is logged and nothing else changes; otherwise
     * a missing dictionary is created, an existing one is reused, and the key
     * is set as HeadersAfterInject says.
     */
    method InjectTraceContextIntoBasicProperties(props: BasicProperties?, key: string, value: string)
      modifies props, logger, if props != null then {props.headers} else {}
      ensures !old(Writable(props)) ==> logger.errors == old(logger.errors) + [InjectFailureMessage]
      ensures !old(Writable(props)) && props != null ==>
        props.headers == old(props.headers) && props.Headers() == old(props.Headers())
      ensures old(Writable(props)) ==> Writable(props) && logger.errors == old(logger.errors)
      ensures old(Writable(props)) ==>
        props.Headers() == Some(HeadersAfterInject(old(props.Headers()), key, value))
      ensures old(Writable(props)) && old(props.headers) != null ==> props.headers == old(props.headers)
      ensures old(Writable(props)) && old(props.headers) == null ==> fresh(props.headers)
    {
      if props == null {
        logger.LogError(InjectFailureMessage);
        return;
      }
      if props.headers == null {
        props.headers := new HeaderDictionary(map[], false);
      }
      var ok := props.headers.Set(key, Rabbit.Text(value));
      if !ok {
        logger.LogError(InjectFailureMessage);
      }
    }

    /** The propagator's setter calls for one message, made in order. */
    method InjectFields(props: BasicProperties?, fields: seq<HeaderField>)
      modifies props, logger, if props != null then {props.headers} else {}
      ensures old(Writable(props)) ==> props.Headers() == HeadersAfterFields(old(props.Headers()), fields)
      ensures old(Writable(props)) ==> logger.errors == old(logger.errors)
      ensures old(Writable(props)) && old(props.headers) != null ==> props.headers == old(props.headers)
      ensures !old(Writable(props)) ==> logger.errors == old(logger.errors) + Repeated(InjectFailureMessage, |fields|)
      ensures !old(Writable(props)) && props != null ==>
        props.headers == old(props.headers) && props.Headers() == old(props.Headers())
    {
      ghost var writable := Writable(props);
      ghost var before := if props != null then props.Headers() else None;
      var i := 0;
      while i < |fields|
        invariant 0 <= i <= |fields|
        invariant props != null && props.headers != null ==>
          props.headers == old(props.headers) || fresh(props.headers)
        invariant writable ==> Writable(props)
        invariant writable ==> props.Headers() == HeadersAfterFields(before, fields[..i])
        invariant writable ==> logger.errors == old(logger.errors)
        invariant writable && old(props.headers) != null ==> props.headers == old(props.headers)
        invariant !writable ==> logger.errors == old(logger.errors) + Repeated(InjectFailureMessage, i)
        invariant !writable && props != null ==>
          props.headers == old(props.headers) && props.Headers() == before
      {
        assert fields[..i + 1] == fields[..i] + [fields[i]];
        InjectTraceContextIntoBasicProperties(props, fields[i].key, fields[i].value);
        i := i + 1;
      }
      assert fields[..i] == fields;
    }

    /**
     * Set: starts a producer activity named after the destination, chooses
     * the context to inject (the new activity's, else the ambient activity's,
     * else the default), has the propagator write it with the ambient baggage
     * through the setter, tags the activity, and returns it (null when none
     * was started); a started activity has become the ambient current one.
     * The ghost result `injected` is the context handed to the propagator.
     */
    method Set(message: PublishingMessage) returns (activity: Activity?, ghost injected: PropagationContext)
      modifies message.properties, logger, ambient
      modifies if message.properties != null then {message.properties.headers} else {}
      ensures activity != null ==> fresh(activity) && !activity.stopped
      ensures activity != null ==> IsValid(activity.context) && IsValid(injected.activityContext)
      ensures activity != null ==> activity.name == ActivityName(message.exchange, message.routingKey, SendVerb)
      ensures activity != null ==> activity.kind == Producer
      ensures activity != null ==> MessagingTagged(map[], activity.tags, message.exchange, message.routingKey)
      ensures activity != null ==> injected.activityContext == activity.context
      ensures activity == null && old(ambient.current) != null ==>
        injected.activityContext == old(ambient.current).context
      ensures activity == null && old(ambient.current) == null ==> injected.activityContext == DefaultContext
      ensures injected.baggage == ambient.baggage == old(ambient.baggage)
      ensures activity != null && old(ambient.current) != null && IsValid(old(ambient.current).context) ==>
        activity.context.traceId == old(ambient.current).context.traceId &&
        activity.parentSpanId == old(ambient.current).context.spanId
      ensures ambient.current == (if activity != null then activity else old(ambient.current))
      ensures old(Writable(message.properties)) ==>
        message.properties.Headers() == HeadersAfterFields(old(message.properties.Headers()), propagator(injected))
      ensures old(Writable(message.properties)) ==> logger.errors == old(logger.errors)
      ensures old(Writable(message.properties)) && old(message.properties.headers) != null ==>
        message.properties.headers == old(message.properties.headers)
      ensures !old(Writable(message.properties)) ==>
        logger.errors == old(logger.errors) + Repeated(InjectFailureMessage, |propagator(injected)|)
      ensures !old(Writable(message.properties)) && message.properties != null ==>
        message.properties.headers == old(message.properties.headers)
        && message.properties.Headers() == old(message.properties.Headers())
    {
      var name := ActivityName(message.exchange, message.routingKey, SendVerb);
      activity := ambient.StartActivity(name, Producer, DefaultContext);

      var contextToInject := DefaultContext;
      if activity != null {
        contextToInject := activity.context;
      } else if ambient.current != null {
        contextToInject := ambient.current.context;
      }

      injected := PropagationContext(contextToInject, ambient.baggage);
      InjectFields(message.properties, propagator(PropagationContext(contextToInject, ambient.baggage)));
      AddMessagingTags(activity, message.exchange, message.routingKey);
    }
  }
}
