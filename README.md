# rabbit-tracing in Dafny

A model of MyLab.RabbitTracing, the pair of RabbitMQ client interceptors that carry
OpenTelemetry trace context across a message broker:

- **PublishingContext** runs once for each outgoing message:
  - it starts a producer activity named `"<destination> send"`;
  - it picks the context to inject: the new activity's, otherwise the ambient
    `Activity.Current`'s, otherwise the default context;
  - the text-map propagator writes that context, with the ambient baggage, into the
    message headers through the interceptor's carrier setter, which creates the
    header dictionary if needed and logs a failure instead of throwing;
  - the activity receives the OpenTelemetry messaging tags.
- **ConsumingContext** runs once for each delivered message:
  - a W3C trace-context propagator extracts the parent context through the carrier
    getter, which reads byte-array headers as UTF-8 and logs and answers nothing on
    failure;
  - it replaces the ambient baggage with the extracted baggage;
  - it starts a consumer activity named `"<destination> receive"` under the
    extracted parent;
  - it tags that activity with the decoded body and the messaging tags;
  - it returns an instance holding the activity and a log scope whose `TraceId`
    entry is the activity's trace id in hex. Disposing the instance stops the
    activity and then closes the scope. Reporting an unhandled exception marks
    the activity with `error = true`.

The modules follow the program's layers.

| file | module | content |
|---|---|---|
| `wrappers.dfy` | `Wrappers` | `Option` |
| `utf8.dfy` | `Utf8` | `Encoding.UTF8`: decoding puts one U+FFFD for each maximal subpart of an ill-formed sequence (so `C0 AF` gives two), and decoding inverts encoding (for strings of Unicode scalar values) |
| `diagnostics.dfy` | `Diagnostics` | `ActivityContext`; an `Activity` class with tags and a stopped flag; `StartActivity`, where creation and the random identifiers are nondeterministic; hex rendering of ids |
| `logging.dfy` | `Logging` | a logger that records error messages, and log scopes |
| `telemetry.dfy` | `Telemetry` | baggage, `PropagationContext`, propagators as parameters, the ambient `Activity.Current` and `Baggage.Current` |
| `rabbit.dfy` | `Rabbit` | header values, the header dictionary, `IBasicProperties`, and the broker turning string headers into their UTF-8 bytes |
| `messaging.dfy` | `Messaging` | `string.IsNullOrWhiteSpace`, the span name, and the messaging tags both interceptors set |
| `publishing.dfy` | `Publishing` | the publishing interceptor |
| `consuming.dfy` | `Consuming` | the consuming interceptor and its instance |
| `endtoend.dfy` | `EndToEnd` | publisher, broker and consumer together: the round trip of headers, and trace continuity |

The two propagators are parameters:

- An `Injector` maps a propagation context to the setter calls it makes.
- An `Extractor` names the fields it asks the getter for and builds a context from
  the answers.

`EndToEnd.Recovers` states the one thing trace continuity needs of them: extraction
recovers the trace id and span id from the values injection wrote for a valid context
(neither id all zeros). Under that assumption `EndToEnd.PublishAndConsume` proves:

- whenever the publisher injected a valid context, the consumer's activity joins that
  trace as a child of the injected span;
- a started publisher activity always has a valid context, so when both sides start an
  activity, the consumer's is a child of the publisher's and has the same trace id;
- when an activity with a valid context is current on the publishing side, the consumer's
  activity is in that activity's trace, whether or not a producer span was started.

Two details of the code that the model keeps:

- With no activity, the log scope still holds a `TraceId` entry, whose value is null.
- Dispose stops the activity first and closes the log scope second.

The consumer's propagator is a bare `TraceContextPropagator`. That propagator hands
back the baggage of the context it was given, which is the default, so in the
deployed code the consumer's ambient baggage becomes empty. The model keeps `parse`
abstract and does not bake this in.

## Model

| member | source | states |
|---|---|---|
| Utf8.Decode | src/MyLab.RabbitTracing/ConsumingContext.cs:78 | `Encoding.UTF8.GetString`: never longer than the bytes, and non-empty for non-empty input |
| Utf8.Encode | src/MyLab.RabbitTracing/PublishingContext.cs:35 | the UTF-8 bytes the client sends for a string header: between one and four bytes per character |
| Utf8.DecodeEncode | src/MyLab.RabbitTracing/ConsumingContext.cs:78 | decoding the UTF-8 encoding of any string of Unicode scalar values gives that string back |
| Diagnostics.Activity.constructor | src/MyLab.RabbitTracing/PublishingContext.cs:49 | a new activity has its name, kind, context and parent span, no tags, and is running |
| Diagnostics.Activity.SetTag | src/MyLab.RabbitTracing/PublishingContext.cs:75-78 | a value sets the tag and null removes it; every other tag and the stopped flag stay as they were |
| Diagnostics.Activity.Dispose | src/MyLab.RabbitTracing/ConsumingContext.cs:103 | the activity is stopped and its tags are unchanged |
| Diagnostics.EffectiveParent | src/MyLab.RabbitTracing/PublishingContext.cs:49 | the parent StartActivity uses is the given context or the current activity's. Any given context other than the default is kept, so a valid one always wins; the current activity's context is used exactly when the default was given and an activity is current |
| Diagnostics.StartActivity | src/MyLab.RabbitTracing/PublishingContext.cs:49 | a started activity is new, has the requested name and kind, no tags and a valid local context. When the effective parent is valid, the activity continues its trace as its child; otherwise it is a root with no parent span |
| Telemetry.Ambient.StartActivity | src/MyLab.RabbitTracing/ConsumingContext.cs:39 | StartActivity with `Activity.Current` as the fallback parent; a started activity becomes `Activity.Current`, otherwise nothing changes, and the baggage is untouched |
| Diagnostics.ToHexString | src/MyLab.RabbitTracing/ConsumingContext.cs:54 | two lower-case hex digits per byte: byte i gives the digits at positions 2i (high nibble) and 2i+1 (low nibble) |
| Diagnostics.ToHexStringInjective | src/MyLab.RabbitTracing/ConsumingContext.cs:54 | equal hex strings come from equal ids |
| Logging.Logger.LogError | src/MyLab.RabbitTracing/PublishingContext.cs:39 | appends exactly the message to the error log |
| Logging.Logger.BeginScope | src/MyLab.RabbitTracing/ConsumingContext.cs:56 | a new open scope holding exactly the given state |
| Logging.LogScope.Dispose | src/MyLab.RabbitTracing/ConsumingContext.cs:104 | the scope is closed |
| Rabbit.HeaderDictionary.Set | src/MyLab.RabbitTracing/PublishingContext.cs:35 | the write succeeds exactly when the dictionary is writable; it then sets the key, otherwise nothing changes |
| Rabbit.Transmit | src/MyLab.RabbitTracing/ConsumingContext.cs:75-77 | the delivered headers have the same keys; string values arrive as their UTF-8 bytes, and other values arrive unchanged |
| Messaging.IsWhiteSpace | src/MyLab.RabbitTracing/PublishingContext.cs:47 | `char.IsWhiteSpace`: among ASCII exactly space and tab through carriage return; beyond ASCII only U+0085, U+00A0 and separators between U+1680 and U+3000; letters, digits, '.', '-' and '_' never |
| Messaging.IsNullOrWhiteSpace | src/MyLab.RabbitTracing/PublishingContext.cs:47-48 | `string.IsNullOrWhiteSpace`: a string is not blank exactly when it exists and has a character that is not white space; the empty string is blank |
| Messaging.BlankConcat | src/MyLab.RabbitTracing/PublishingContext.cs:48 | a concatenation is blank exactly when both parts are (used for ActivityNameNotBlank) |
| Messaging.ActivityName | src/MyLab.RabbitTracing/PublishingContext.cs:47-48 | the exchange if it is not blank, else the routing key if it is not blank, else "queue", followed by a space and the verb; the destination part is never blank |
| Messaging.ActivityNameNotBlank | src/MyLab.RabbitTracing/PublishingContext.cs:48 | for every exchange, routing key and verb, the span name itself is not blank |
| Messaging.DestinationKind | src/MyLab.RabbitTracing/PublishingContext.cs:76 | "queue" exactly when the exchange is null or blank, "topic" exactly otherwise |
| Messaging.AddMessagingTags | src/MyLab.RabbitTracing/PublishingContext.cs:69-79 | sets system to rabbitmq and the destination kind; destination and routing key are set to the message's values, or absent when those are null; no other tag changes; does nothing without an activity (the consumer's copy is at ConsumingContext.cs:59-69) |
| Publishing.LastValue | src/MyLab.RabbitTracing/PublishingContext.cs:61 | the value of the last setter call under the key: no later call writes that key |
| Publishing.HeadersAfterInject | src/MyLab.RabbitTracing/PublishingContext.cs:30-35 | a null dictionary becomes an empty one; the key then holds the string, and every other entry is unchanged |
| Publishing.HeadersAfterFields | src/MyLab.RabbitTracing/PublishingContext.cs:61 | the headers stay null only when they were null and nothing was written |
| Publishing.LastWriteWins | src/MyLab.RabbitTracing/PublishingContext.cs:61 | after the propagator's setter calls, each written key holds its last value, and every other key is present and valued as before |
| Publishing.InjectIdempotent | src/MyLab.RabbitTracing/PublishingContext.cs:35 | writing the same key and value twice equals writing it once |
| Publishing.PublishingContext.InjectTraceContextIntoBasicProperties | src/MyLab.RabbitTracing/PublishingContext.cs:26-41 | without writable properties, logs "Failed to inject trace context." and changes no header; otherwise creates a missing dictionary (new) or reuses the existing one, sets the key, logs nothing, and leaves the properties writable |
| Publishing.PublishingContext.InjectFields | src/MyLab.RabbitTracing/PublishingContext.cs:61 | the setter calls in order: headers become HeadersAfterFields with no error, or stay unchanged with one error per call |
| Publishing.PublishingContext.Set | src/MyLab.RabbitTracing/PublishingContext.cs:43-67 | a started activity is new, running, valid, a producer, named "… send" and messaging-tagged. It is a child of a valid ambient activity, and it becomes `Activity.Current`. The injected context is the activity's, else the ambient activity's, else the default, with the unchanged ambient baggage. The headers and error log follow InjectFields for the propagator's writes of that context |
| Consuming.LookupHeader | src/MyLab.RabbitTracing/ConsumingContext.cs:71-87 | fails exactly when there are no properties, or the key holds a non-byte-array value (including null); missing exactly when the headers are null or lack the key; found exactly for a byte array, with its UTF-8 decoding |
| Consuming.Values | src/MyLab.RabbitTracing/ConsumingContext.cs:78-86 | the getter's answer: one string exactly when the lookup found one, else empty |
| Consuming.AnswersAreGetterValues | src/MyLab.RabbitTracing/ConsumingContext.cs:30 | the extractor is answered for exactly the fields it asks, each with the getter's value for that key |
| Consuming.FailureCount | src/MyLab.RabbitTracing/ConsumingContext.cs:81-84 | at most one error per field asked, and one for every field when the properties are null |
| Consuming.LogScopeState | src/MyLab.RabbitTracing/ConsumingContext.cs:50-57 | exactly one entry, `TraceId`; it is null exactly when there is no activity, otherwise the 32-character hex trace id |
| Consuming.LogScopeIdentifiesTrace | src/MyLab.RabbitTracing/ConsumingContext.cs:54 | two activities with equal log scope states belong to the same trace |
| Consuming.ConsumingContextInstance.constructor | src/MyLab.RabbitTracing/ConsumingContext.cs:95-99 | the instance holds the given activity and scope |
| Consuming.ConsumingContextInstance.Dispose | src/MyLab.RabbitTracing/ConsumingContext.cs:101-105 | stops the activity with its tags unchanged, then closes the scope; each step is skipped when null, and a ghost result records the release order |
| Consuming.ConsumingContextInstance.NotifyUnhandledException | src/MyLab.RabbitTracing/ConsumingContext.cs:107-110 | with an activity, sets `error` to true, leaving other tags and the stopped flag unchanged; without one, does nothing |
| Consuming.ConsumingContext.ParentContext | src/MyLab.RabbitTracing/ConsumingContext.cs:30 | `Extract(default, …)`: the extractor's result from the default context and answers for exactly its fields, each the getter's value for that key |
| Consuming.ConsumingContext.ExtractTraceContextFromBasicProperties | src/MyLab.RabbitTracing/ConsumingContext.cs:71-87 | answers Values(LookupHeader) and logs "Failed to extract trace context: {ex}" exactly when the lookup failed |
| Consuming.ConsumingContext.QueryFields | src/MyLab.RabbitTracing/ConsumingContext.cs:30 | one getter call per field: the answers are Answers, with one error logged per failed field |
| Consuming.ConsumingContext.CreateLogScope | src/MyLab.RabbitTracing/ConsumingContext.cs:50-57 | opens a new scope whose state is LogScopeState(activity) |
| Consuming.ConsumingContext.Set | src/MyLab.RabbitTracing/ConsumingContext.cs:28-48 | the ambient baggage becomes the extracted baggage, with one error per failed field. A started activity is new, running, valid, a consumer and named "… receive". When the effective parent is valid, the activity is its child in the same trace; otherwise it is a root. The effective parent is the extracted context, or `Activity.Current`'s when the default was extracted. The activity becomes `Activity.Current`. Its tags are the decoded body under `message` plus the messaging tags. The new open log scope has LogScopeState |
| EndToEnd.HeaderRoundTrip | src/MyLab.RabbitTracing/ConsumingContext.cs:75-78 | a header written by the setter and carried by the broker is read back by the getter as exactly the string written (any string of Unicode scalar values) |
| EndToEnd.StringHeaderNotReadable | src/MyLab.RabbitTracing/ConsumingContext.cs:77 | a string value that did not go through the broker is not a byte array, so the getter fails on it |
| EndToEnd.FieldsRoundTrip | src/MyLab.RabbitTracing/ConsumingContext.cs:30 | a field the extractor asks for is answered with the last value injected under it; a field that was not injected is answered as the original headers would answer it |
| EndToEnd.PropagationRecovers | src/MyLab.RabbitTracing/ConsumingContext.cs:30 | with propagators that satisfy Recovers, extraction on the consumer's side gives back the injected valid trace id and span id |
| EndToEnd.PublishAndConsume | src/IntegrationTests/TracingContextIntegrationBehavior.cs:106 | with writable properties and such propagators, when a valid context was injected, a consumer activity has the injected trace id and the injected span as its parent. A started publisher activity is always what was injected, so a consumer activity is then its child in the same trace, and it is `Activity.Current`. Without a publisher activity, the ambient activity's context is injected. When an activity with a valid context was current on the publishing side (the test's own activity), a consumer activity has its trace id, whether or not a producer span was started |

## Left out

- W3C Trace Context and Baggage encodings: the propagators come from OpenTelemetry and are parameters here (`Injector`, `Extractor`).
- Publishing.PublishingContext.Set: the propagator's own null-carrier check is not modelled. With null properties, OpenTelemetry's injector returns before calling the setter, so the deployed code logs nothing; the model calls the setter for every injected field and logs one error per field.
- Consuming.ConsumingContext.Set: likewise, with null properties OpenTelemetry's extractor returns before calling the getter, so the deployed code logs nothing; the model calls the getter for every extractor field and logs one error per field (FailureCount).
- Sampling and identifier generation in `ActivitySource.StartActivity` are nondeterministic. The model does not promise that the new span id differs from the parent's.
- Consuming.ConsumingContextInstance.Dispose: `Activity.Dispose` in .NET restores `Activity.Current` to the activity that was current when the disposed one started. The model does not restore it: `Activity` holds no reference to its parent activity or to the ambient state.
- Async-local flow of `Activity.Current` and `Baggage.Current` across threads, and concurrency in general, are not modelled.
- Log message formatting, the exception object handed to `LogError`, log levels and providers are not modelled; only the message text is recorded.
- The exception an unhandled-error report carries is ignored, as it is in the code.
- The activity source names ("MessagePublisher" and the entry assembly's name) are not modelled.
- Registration with dependency injection and with the OpenTelemetry builder (`ServiceCollectionExtensions.cs`, `TraceProviderBuilderExtensions.cs`) is not part of this model.
- `TraceIdInjector.cs` and `TraceIdRestorer.cs` are not part of this model: both only throw `NotImplementedException`.
- Consuming.ConsumingContext.QueryFields: the extractor is modelled as asking for each of its fields once, in a fixed order, and building its result only from those answers.
- Publishing.PublishingContext.InjectTraceContextIntoBasicProperties: a write that throws for a reason other than missing properties or a read-only dictionary is not modelled.
- Utf8.DecodeEncode: Dafny strings hold only Unicode scalar values. A C# string with an unpaired UTF-16 surrogate is encoded with U+FFFD (bytes EF BF BD) in its place, so for such a string the header round trip (EndToEnd.HeaderRoundTrip, EndToEnd.FieldsRoundTrip) is not exact; the model covers well-formed UTF-16 strings only.
- Diagnostics.StartActivity: the `recorded` flag and the trace state are not tied to the parent.
