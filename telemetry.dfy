/**
 * The OpenTelemetry side of propagation: baggage, the PropagationContext a
 * propagator injects or extracts, the ambient state (Activity.Current and
 * Baggage.Current), and the two propagators reduced to what the interceptors
 * see of them.
 *
 * The propagators are library code (W3C Trace Context and W3C Baggage
 * codecs) and are not reimplemented: an Injector is the sequence of
 * key/value pairs a propagator hands to the carrier setter for a context, and
 * an Extractor names the header keys it asks the carrier getter for and how
 * it turns the answers into a context. The publishing and the consuming side
 * are each given their own.
 */
module Telemetry {
  import opened Diagnostics

  type Baggage = map<string, string>

  datatype PropagationContext = PropagationContext(activityContext: ActivityContext, baggage: Baggage)

  /** `default(PropagationContext)`: the default activity context and no baggage. */
  const DefaultPropagationContext := PropagationContext(DefaultContext, map[])

  /** One call of the carrier setter. */
  datatype HeaderField = HeaderField(key: string, value: string)

  type Injector = PropagationContext -> seq<HeaderField>

  /**
   * `fields` are the keys the getter is asked for; `parse` receives the
   * context passed to Extract and the getter's answer for each field.
   */
  datatype Extractor = Extractor(
    fields: seq<string>,
    parse: (PropagationContext, map<string, seq<string>>) -> PropagationContext)

  /** Activity.Current and Baggage.Current, shared by everything running in the same flow. */
  class Ambient {
    var current: Activity?
    var baggage: Baggage

    constructor (current: Activity?, baggage: Baggage)
      ensures this.current == current && this.baggage == baggage
    {
      this.current := current;
      this.baggage := baggage;
    }

    /**
     * ActivitySource.StartActivity as seen from the ambient state: the
     * activity is started with Activity.Current as the fallback parent and,
     * when one was started, it becomes Activity.Current. Baggage is untouched.
     */
    method StartActivity(name: string, kind: ActivityKind, parent: ActivityContext)
      returns (activity: Activity?)
      modifies this
      ensures activity != null ==> fresh(activity)
      ensures activity != null ==> activity.name == name && activity.kind == kind
      ensures activity != null ==> activity.tags == map[] && !activity.stopped
      ensures activity != null ==> IsValid(activity.context) && !activity.context.isRemote
      ensures activity != null && IsValid(EffectiveParent(parent, old(current))) ==>
        activity.context.traceId == EffectiveParent(parent, old(current)).traceId &&
        activity.parentSpanId == EffectiveParent(parent, old(current)).spanId
      ensures activity != null && !IsValid(EffectiveParent(parent, old(current))) ==>
        activity.parentSpanId == ZeroSpanId
      ensures current == (if activity != null then activity else old(current))
      ensures baggage == old(baggage)
    {
      activity := Diagnostics.StartActivity(name, kind, parent, current);
      if activity != null {
        current := activity;
      }
    }
  }
}
