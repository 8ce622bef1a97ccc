/**
 * The parts of System.Diagnostics tracing that the interceptors use: the
 * identifiers of a span (ActivityTraceId, ActivitySpanId and the
 * ActivityContext that pairs them), the Activity whose tags the interceptors
 * set and which they dispose, and ActivitySource.StartActivity, whose
 * sampling decision and random identifiers are left open (nondeterministic).
 */
module Diagnostics {
  import opened Wrappers
  import opened Utf8

  function Zeros(n: nat): (z: seq<byte>)
    ensures |z| == n
  {
    if n == 0 then [] else [0] + Zeros(n - 1)
  }

  /** A 128-bit trace id, as its 16 bytes. */
  type TraceId = s: seq<byte> | |s| == 16 witness Zeros(16)

  /** A 64-bit span id, as its 8 bytes. */
  type SpanId = s: seq<byte> | |s| == 8 witness Zeros(8)

  const ZeroTraceId: TraceId := Zeros(16)
  const ZeroSpanId: SpanId := Zeros(8)

  /** ActivityContext: the identifiers a propagator carries across the broker. */
  datatype ActivityContext = ActivityContext(traceId: TraceId, spanId: SpanId, recorded: bool, isRemote: bool)

  /** `default(ActivityContext)`: all-zero identifiers. */
  const DefaultContext := ActivityContext(ZeroTraceId, ZeroSpanId, false, false)

  /** A context is valid when neither of its identifiers is all zeros. */
  predicate IsValid(context: ActivityContext) {
    context.traceId != ZeroTraceId && context.spanId != ZeroSpanId
  }

  datatype ActivityKind = Internal | Server | Client | Producer | Consumer

  /** The values the interceptors store as tags: strings and the boolean error marker. */
  datatype TagValue = StringTag(text: string) | BoolTag(flag: bool)

  class Activity {
    const name: string
    const kind: ActivityKind
    const context: ActivityContext
    const parentSpanId: SpanId
    var tags: map<string, TagValue>
    var stopped: bool

    constructor (name: string, kind: ActivityKind, context: ActivityContext, parentSpanId: SpanId)
      ensures this.name == name && this.kind == kind && this.context == context
      ensures this.parentSpanId == parentSpanId
      ensures tags == map[] && !stopped
    {
      this.name := name;
      this.kind := kind;
      this.context := context;
      this.parentSpanId := parentSpanId;
      tags := map[];
      stopped := false;
    }

    /** Activity.SetTag: a value replaces the tag of that key; null removes it. */
    method SetTag(key: string, value: Option<TagValue>)
      modifies this
      ensures value.Some? ==> key in tags && tags[key] == value.value
      ensures value.None? ==> key !in tags
      ensures forall k :: k != key ==> (k in tags <==> k in old(tags))
      ensures forall k :: k != key && k in tags ==> tags[k] == old(tags)[k]
      ensures stopped == old(stopped)
    {
      match value
      case Some(v) => tags := tags[key := v];
      case None => tags := tags - {key};
    }

    /** Activity.Dispose: stops the activity (again, harmlessly, when already stopped). */
    method Dispose()
      modifies this
      ensures stopped && tags == old(tags)
    {
      stopped := true;
    }
  }

  /**
   * The parent an activity gets: the context passed in, unless that is the
   * default context, in which case the ambient current activity's (if any).
   */
  function EffectiveParent(parent: ActivityContext, current: Activity?): (effective: ActivityContext)
    ensures effective == parent || (current != null && effective == current.context)
    ensures IsValid(parent) ==> effective == parent
    ensures current == null ==> effective == parent
    ensures parent != DefaultContext ==> effective == parent
    ensures parent == DefaultContext && current != null ==> effective == current.context
  {
    if parent == DefaultContext && current != null then current.context else parent
  }

  /**
   * ActivitySource.StartActivity(name, kind, parent) with Activity.Current
   * being `current` (Ambient.StartActivity also makes the result current).
   * Whether an activity is created at all (no listener, or sampled out) and
   * the random identifiers it gets are outside the model, so both are chosen
   * nondeterministically. What is fixed is that a created activity is new,
   * carries the name and kind asked for, has a valid context, and continues
   * the trace of its effective parent when that is valid; when it is not,
   * the activity is the root of a new trace (no parent span).
   */
  method StartActivity(name: string, kind: ActivityKind, parent: ActivityContext, current: Activity?)
    returns (activity: Activity?)
    ensures activity != null ==> fresh(activity)
    ensures activity != null ==> activity.name == name && activity.kind == kind
    ensures activity != null ==> activity.tags == map[] && !activity.stopped
    ensures activity != null ==> IsValid(activity.context) && !activity.context.isRemote
    ensures activity != null && IsValid(EffectiveParent(parent, current)) ==>
      activity.context.traceId == EffectiveParent(parent, current).traceId &&
      activity.parentSpanId == EffectiveParent(parent, current).spanId
    ensures activity != null && !IsValid(EffectiveParent(parent, current)) ==>
      activity.parentSpanId == ZeroSpanId
  {
    if * {
      return null;
    }
    var someTrace: TraceId := [1] + Zeros(15);
    var someSpan: SpanId := [1] + Zeros(7);
    assert someTrace[0] != ZeroTraceId[0] && someSpan[0] != ZeroSpanId[0];
    var traceId: TraceId :| traceId != ZeroTraceId;
    var spanId: SpanId :| spanId != ZeroSpanId;
    var recorded: bool :| true;
    var parentSpanId := ZeroSpanId;
    var effective := EffectiveParent(parent, current);
    if IsValid(effective) {
      traceId, parentSpanId := effective.traceId, effective.spanId;
    }
    activity := new Activity(name, kind, ActivityContext(traceId, spanId, recorded, false), parentSpanId);
  }

  predicate IsLowerHexDigit(c: char) {
    '0' <= c <= '9' || 'a' <= c <= 'f'
  }

  function HexDigit(n: nat): (c: char)
    requires n < 16
  {
    if n < 10 then ('0' as int + n) as char else ('a' as int + n - 10) as char
  }

  /** ActivityTraceId.ToHexString / ActivitySpanId.ToHexString: two lower-case hex digits per byte. */
  function ToHexString(bytes: seq<byte>): (hex: string)
    ensures |hex| == 2 * |bytes|
    ensures forall i :: 0 <= i < |hex| ==> IsLowerHexDigit(hex[i])
    ensures forall i :: 0 <= i < |bytes| ==>
      hex[2 * i] == HexDigit(bytes[i] / 16) && hex[2 * i + 1] == HexDigit(bytes[i] % 16)
  {
    if bytes == [] then []
    else [HexDigit(bytes[0] / 16), HexDigit(bytes[0] % 16)] + ToHexString(bytes[1..])
  }

  /** Distinct identifiers have distinct hex renderings, so the hex string identifies the id. */
  lemma {:induction false} ToHexStringInjective(a: seq<byte>, b: seq<byte>)
    requires ToHexString(a) == ToHexString(b)
    ensures a == b
  {
    if a != [] {
      var ha, hb := ToHexString(a), ToHexString(b);
      assert b != [];
      assert ha[0] == hb[0] && ha[1] == hb[1];
      assert a[0] / 16 == b[0] / 16 && a[0] % 16 == b[0] % 16;
      assert ha[2..] == ToHexString(a[1..]) && hb[2..] == ToHexString(b[1..]);
      ToHexStringInjective(a[1..], b[1..]);
    }
  }
}
