/**
 * The RabbitMQ client types the interceptors work on: message header
 * values, the header dictionary of IBasicProperties, and what the broker
 * connection does to header values between publisher and consumer.
 */
module Rabbit {
  import opened Wrappers
  import opened Utf8

  /**
   * A header value as the client holds it: headers are a dictionary of
   * string keys to arbitrary objects. Strings and byte arrays are the two
   * shapes that matter here; any other object, and null, are kept apart.
   */
  datatype HeaderValue = Null | Text(text: string) | Bytes(bytes: seq<byte>) | Other

  type Headers = map<string, HeaderValue>

  /** IDictionary<string, object>; a read-only one throws on every write. */
  class HeaderDictionary {
    var entries: Headers
    const readOnly: bool

    constructor (entries: Headers, readOnly: bool)
      ensures this.entries == entries && this.readOnly == readOnly
    {
      this.entries := entries;
      this.readOnly := readOnly;
    }

    /** The indexer's setter: `ok` is false when it threw. */
    method Set(key: string, value: HeaderValue) returns (ok: bool)
      modifies this
      ensures ok == !readOnly
      ensures entries == if ok then old(entries)[key := value] else old(entries)
    {
      ok := !readOnly;
      if ok {
        entries := entries[key := value];
      }
    }
  }

  /** IBasicProperties of an outgoing message: only its Headers property matters here. */
  class BasicProperties {
    var headers: HeaderDictionary?

    constructor (headers: HeaderDictionary?)
      ensures this.headers == headers
    {
      this.headers := headers;
    }

    /** The header entries, or None while Headers is null. */
    function Headers(): Option<Headers>
      reads this, headers
    {
      if headers == null then None else Some(headers.entries)
    }
  }

  /** IBasicProperties of a delivered message, as a value. */
  datatype DeliveredProperties = DeliveredProperties(headers: Option<Headers>)

  /**
   * What a header value becomes on the consumer's side: the AMQP field table
   * carries a string as a long string of its UTF-8 bytes, which the client
   * hands back as a byte array; other values arrive as they were sent.
   */
  function Transmitted(v: HeaderValue): (w: HeaderValue)
    ensures v.Text? ==> w == Bytes(Encode(v.text))
    ensures !v.Text? ==> w == v
  {
    match v
    case Text(s) => Bytes(Encode(s))
    case _ => v
  }

  /** The headers a consumer receives for the headers a publisher sent (null stays null). */
  function Transmit(headers: Option<Headers>): (r: Option<Headers>)
    ensures r.Some? <==> headers.Some?
    ensures r.Some? ==> r.value.Keys == headers.value.Keys
    ensures r.Some? ==> forall k :: k in r.value ==> r.value[k] == Transmitted(headers.value[k])
  {
    match headers
    case None => None
    case Some(h) => Some(map k | k in h :: Transmitted(h[k]))
  }
}
