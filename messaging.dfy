/**
 * What the publishing and the consuming interceptor derive alike from a
 * message's exchange and routing key: the span name and the OpenTelemetry
 * messaging attributes. Exchange and routing key are C# strings and may be
 * null, hence Option.
 */
module Messaging {
  import opened Wrappers
  import opened Diagnostics

  /**
   * char.IsWhiteSpace: the controls U+0009..U+000D and U+0085 and the Unicode
   * space, line and paragraph separators (U+0020, U+00A0, U+1680,
   * U+2000..U+200A, U+2028, U+2029, U+202F, U+205F, U+3000).
   */
  function IsWhiteSpace(c: char): (w: bool)
    ensures c as int < 0x80 ==> (w <==> c == ' ' || '\t' <= c <= '\r')
    ensures w ==> c as int == 0x85 || c as int == 0xA0 || c as int < 0x80 || 0x1680 <= c as int <= 0x3000
    ensures 'a' <= c <= 'z' || 'A' <= c <= 'Z' || '0' <= c <= '9' || c == '.' || c == '-' || c == '_' ==> !w
  {
    var u := c as int;
    || 0x09 <= u <= 0x0D || u == 0x20 || u == 0x85 || u == 0xA0 || u == 0x1680
    || 0x2000 <= u <= 0x200A || u == 0x2028 || u == 0x2029 || u == 0x202F || u == 0x205F || u == 0x3000
  }

  /** string.IsNullOrWhiteSpace: a string counts unless it has a character that is not white space. */
  function IsNullOrWhiteSpace(s: Option<string>): (blank: bool)
    ensures !blank <==> s.Some? && exists i :: 0 <= i < |s.value| && !IsWhiteSpace(s.value[i])
    ensures s == Some("") ==> blank
  {
    s.None? || forall i :: 0 <= i < |s.value| ==> IsWhiteSpace(s.value[i])
  }

  /** A string is blank exactly when both of its parts are. */
  lemma BlankConcat(a: string, b: string)
    ensures IsNullOrWhiteSpace(Some(a + b)) <==> IsNullOrWhiteSpace(Some(a)) && IsNullOrWhiteSpace(Some(b))
  {
    var ab := a + b;
    assert forall i :: 0 <= i < |a| ==> ab[i] == a[i];
    assert forall i :: 0 <= i < |b| ==> ab[|a| + i] == b[i];
  }

  /** The placeholder destination used when neither exchange nor routing key is given. */
  const QueuePlaceholder := "queue"

  const SendVerb := "send"
  const ReceiveVerb := "receive"

  /**
   * The span name: the exchange, else the routing key, else the placeholder,
   * followed by a space and the verb. Whatever the input, the part before the
   * verb is never blank.
   */
  function ActivityName(exchange: Option<string>, routingKey: Option<string>, verb: string): (name: string)
    ensures !IsNullOrWhiteSpace(exchange) ==> name == exchange.value + " " + verb
    ensures IsNullOrWhiteSpace(exchange) && !IsNullOrWhiteSpace(routingKey) ==> name == routingKey.value + " " + verb
    ensures IsNullOrWhiteSpace(exchange) && IsNullOrWhiteSpace(routingKey) ==> name == QueuePlaceholder + " " + verb
    ensures exists destination: string :: name == destination + " " + verb && !IsNullOrWhiteSpace(Some(destination))
  {
    var destination := if IsNullOrWhiteSpace(exchange) then routingKey else exchange;
    var shown := if IsNullOrWhiteSpace(destination) then QueuePlaceholder else destination.value;
    assert !IsWhiteSpace(QueuePlaceholder[0]);
    shown + " " + verb
  }

  /** Whatever the exchange, routing key and verb, the span name itself is never blank. */
  lemma ActivityNameNotBlank(exchange: Option<string>, routingKey: Option<string>, verb: string)
    ensures !IsNullOrWhiteSpace(Some(ActivityName(exchange, routingKey, verb)))
  {
    var name := ActivityName(exchange, routingKey, verb);
    var destination: string :| name == destination + " " + verb && !IsNullOrWhiteSpace(Some(destination));
    assert name == destination + (" " + verb);
    BlankConcat(destination, " " + verb);
  }

  const SystemTag := "messaging.system"
  const DestinationKindTag := "messaging.destination_kind"
  const DestinationTag := "messaging.destination"
  const RoutingKeyTag := "messaging.rabbitmq.routing_key"

  const RabbitMqSystem := "rabbitmq"

  /** "queue" exactly when the message goes to the default exchange (blank name), "topic" otherwise. */
  function DestinationKind(exchange: Option<string>): (kind: string)
    ensures kind == "queue" <==> IsNullOrWhiteSpace(exchange)
    ensures kind == "topic" <==> !IsNullOrWhiteSpace(exchange)
  {
    if IsNullOrWhiteSpace(exchange) then "queue" else "topic"
  }

  function AsTag(s: Option<string>): Option<TagValue> {
    match s
    case Some(text) => Some(StringTag(text))
    case None => None
  }

  /**
   * The messaging attributes: the system is always rabbitmq, the destination
   * kind follows DestinationKind, destination and routing key are the
   * message's own (absent when null), and no other tag changes.
   */
  ghost predicate MessagingTagged(before: map<string, TagValue>, after: map<string, TagValue>,
                                  exchange: Option<string>, routingKey: Option<string>)
  {
    && SystemTag in after && after[SystemTag] == StringTag(RabbitMqSystem)
    && DestinationKindTag in after && after[DestinationKindTag] == StringTag(DestinationKind(exchange))
    && (exchange.Some? ==> DestinationTag in after && after[DestinationTag] == StringTag(exchange.value))
    && (exchange.None? ==> DestinationTag !in after)
    && (routingKey.Some? ==> RoutingKeyTag in after && after[RoutingKeyTag] == StringTag(routingKey.value))
    && (routingKey.None? ==> RoutingKeyTag !in after)
    && (forall k :: k !in {SystemTag, DestinationKindTag, DestinationTag, RoutingKeyTag} ==>
          (k in after <==> k in before))
    && (forall k :: k !in {SystemTag, DestinationKindTag, DestinationTag, RoutingKeyTag} && k in after ==>
          after[k] == before[k])
  }

  /** The four SetTag calls both interceptors make, each skipped when there is no activity. */
  method AddMessagingTags(activity: Activity?, exchange: Option<string>, routingKey: Option<string>)
    modifies activity
    ensures activity != null ==> MessagingTagged(old(activity.tags), activity.tags, exchange, routingKey)
    ensures activity != null ==> activity.stopped == old(activity.stopped)
  {
    if activity == null {
      return;
    }
    activity.SetTag(SystemTag, Some(StringTag(RabbitMqSystem)));
    activity.SetTag(DestinationKindTag, Some(StringTag(DestinationKind(exchange))));
    activity.SetTag(DestinationTag, AsTag(exchange));
    activity.SetTag(RoutingKeyTag, AsTag(routingKey));
  }
}
