/** Outbound HTTP requests and their delivery. The HTTP client itself is not
    modelled: a send is an abstract call whose answer (a status code, or a
    transport failure) is an input of the model. */
module Outbound {
  import opened Values

  const OK := 200
  const ACCEPTED := 202

  /** What the counter-party answered, or that the send threw. */
  datatype SendOutcome = Status(code: int) | TransportError

  /** A request as the builders hand it to the HTTP client. Header values
      that are undefined are not sent, so the header map holds only the
      defined ones; the body is the value that is serialised as JSON. */
  datatype HttpRequest = HttpRequest(
    verb: string,
    url: string,
    headers: map<string, string>,
    body: Value)

  /** `body.key` of a request whose body is an object; undefined otherwise. */
  function BodyField(req: HttpRequest, key: string): Value {
    if req.body.Obj? && key in req.body.fields then req.body.fields[key] else Undefined
  }

  /** The result of one "build, send, check the status" step whose errors
      are caught and logged: nothing was sent because building the request
      threw, or the request was sent and the reply was or was not the one
      the protocol expects. */
  datatype Delivery = NotSent | Sent(request: HttpRequest, accepted: bool)

  /** Send `req` and treat exactly the `expected` status as success; any
      other status and a transport failure are swallowed alike. */
  function Dispatch(req: HttpRequest, reply: SendOutcome, expected: int): (d: Delivery)
    ensures d.Sent? && d.request == req
    ensures d.accepted <==> reply == Status(expected)
  {
    Sent(req, reply.Status? && reply.code == expected)
  }

  /** The delivery of a request whose construction may throw inside the
      same `try` as the send. */
  function Deliver(built: Result<HttpRequest>, reply: SendOutcome, expected: int): (d: Delivery)
    ensures d.NotSent? <==> built.Err?
    ensures built.Ok? ==> d == Dispatch(built.value, reply, expected)
  {
    match built
    case Ok(req) => Dispatch(req, reply, expected)
    case Err(_) => NotSent
  }

  /** Add a header whose value may be undefined (then it is not sent). */
  function WithHeader(h: map<string, string>, name: string, v: Option<string>): (r: map<string, string>)
    ensures Get(r, name) == v
    ensures forall k {:trigger Get(r, k)} :: k != name ==> Get(r, k) == Get(h, k)
    ensures r.Keys <= h.Keys + {name}
  {
    match v
    case Some(s) => h[name := s]
    case None => h - {name}
  }

  /** The content headers of a request the payer starts: the reply type it
      accepts, the type of its body and its date. */
  function RequestBase(accept: string, contentType: string, date: string): (f: map<string, string>)
    ensures f.Keys == {"Accept", "Content-Type", "Date"}
    ensures Get(f, "Accept") == Some(accept)
    ensures Get(f, "Content-Type") == Some(contentType)
    ensures Get(f, "Date") == Some(date)
  {
    map["Accept" := accept, "Content-Type" := contentType, "Date" := date]
  }

  /** The fixed headers of a callback: the type of its body, its date, and
      the method and resource it answers on. */
  function CallbackBase(contentType: string, date: string, verb: string, uri: string): (f: map<string, string>)
    ensures f.Keys == {"Content-Type", "Date", "FSPIOP-HTTP-Method", "FSPIOP-URI"}
    ensures Get(f, "Content-Type") == Some(contentType)
    ensures Get(f, "Date") == Some(date)
    ensures Get(f, "FSPIOP-HTTP-Method") == Some(verb)
    ensures Get(f, "FSPIOP-URI") == Some(uri)
  {
    map["Content-Type" := contentType, "Date" := date, "FSPIOP-HTTP-Method" := verb, "FSPIOP-URI" := uri]
  }

  /** `h.name ? h.name : undefined`: a header copied only when non-empty. */
  function IfPresent(h: Headers, name: string): Option<string> {
    if name in h && h[name] != "" then Some(h[name]) else None
  }

  /** The headers a callback takes from the request it answers. */
  const CallbackRouting: set<string> := {"FSPIOP-Source", "FSPIOP-Destination", "traceparent", "tracestate"}

  /** Source and destination swapped, the trace context copied when
      present. */
  function CallbackRoutingOf(inbound: Headers): (r: map<string, string>)
    ensures r.Keys <= CallbackRouting
    ensures Get(r, "FSPIOP-Source") == Get(inbound, "fspiop-destination")
    ensures Get(r, "FSPIOP-Destination") == Get(inbound, "fspiop-source")
    ensures Get(r, "traceparent") == IfPresent(inbound, "traceparent")
    ensures Get(r, "tracestate") == IfPresent(inbound, "tracestate")
  {
    var h1 := WithHeader(map[], "FSPIOP-Source", Get(inbound, "fspiop-destination"));
    var h2 := WithHeader(h1, "FSPIOP-Destination", Get(inbound, "fspiop-source"));
    var h3 := WithHeader(h2, "traceparent", IfPresent(inbound, "traceparent"));
    WithHeader(h3, "tracestate", IfPresent(inbound, "tracestate"))
  }

  /** The headers of a callback: the routing ones taken from the inbound
      request, every other header as given. An object literal names each
      header once, so `fixed` holds none of the routing ones. */
  function RoutedBack(fixed: map<string, string>, inbound: Headers): (h: map<string, string>)
    requires fixed.Keys !! CallbackRouting
    ensures Get(h, "FSPIOP-Source") == Get(inbound, "fspiop-destination")
    ensures Get(h, "FSPIOP-Destination") == Get(inbound, "fspiop-source")
    ensures Get(h, "traceparent") == IfPresent(inbound, "traceparent")
    ensures Get(h, "tracestate") == IfPresent(inbound, "tracestate")
    ensures forall k {:trigger Get(h, k)} :: k !in CallbackRouting ==> Get(h, k) == Get(fixed, k)
    ensures h.Keys <= fixed.Keys + CallbackRouting
  {
    var r := CallbackRoutingOf(inbound);
    assert forall k :: k in CallbackRouting ==> Get(r + fixed, k) == Get(r, k);
    r + fixed
  }

  /** The headers a request the payer starts takes from the inbound one. */
  const RequestRouting: set<string> := {"FSPIOP-Source", "FSPIOP-Destination", "traceparent"}

  /** Source and destination swapped, the traceparent copied as it is. */
  function RequestRoutingOf(inbound: Headers): (r: map<string, string>)
    ensures r.Keys <= RequestRouting
    ensures Get(r, "FSPIOP-Source") == Get(inbound, "fspiop-destination")
    ensures Get(r, "FSPIOP-Destination") == Get(inbound, "fspiop-source")
    ensures Get(r, "traceparent") == Get(inbound, "traceparent")
  {
    var h1 := WithHeader(map[], "FSPIOP-Source", Get(inbound, "fspiop-destination"));
    var h2 := WithHeader(h1, "FSPIOP-Destination", Get(inbound, "fspiop-source"));
    WithHeader(h2, "traceparent", Get(inbound, "traceparent"))
  }

  /** The headers of a request the payer starts on behalf of an inbound
      one: the routing ones taken from it, every other header as given. */
  function ForwardedBack(fixed: map<string, string>, inbound: Headers): (h: map<string, string>)
    requires fixed.Keys !! RequestRouting
    ensures Get(h, "FSPIOP-Source") == Get(inbound, "fspiop-destination")
    ensures Get(h, "FSPIOP-Destination") == Get(inbound, "fspiop-source")
    ensures Get(h, "traceparent") == Get(inbound, "traceparent")
    ensures forall k {:trigger Get(h, k)} :: k !in RequestRouting ==> Get(h, k) == Get(fixed, k)
    ensures h.Keys <= fixed.Keys + RequestRouting
  {
    var r := RequestRoutingOf(inbound);
    assert forall k :: k in RequestRouting ==> Get(r + fixed, k) == Get(r, k);
    r + fixed
  }

  /** An outbound request is addressed back to the sender of an inbound one
      when its source is the inbound destination and its destination the
      inbound source (each present exactly when the other is). */
  predicate AddressedBack(inbound: Headers, out: map<string, string>) {
    && Get(out, "FSPIOP-Source") == Get(inbound, "fspiop-destination")
    && Get(out, "FSPIOP-Destination") == Get(inbound, "fspiop-source")
  }

  /** The time source and formatters the builders read: `Date.now()`, and
      `toISOString` / `toUTCString` of an instant given in milliseconds. */
  datatype Clock = Clock(nowMs: int, iso: int -> string, utc: int -> string)

  /** `JSON.stringify` and `base64url.encode`, which the model does not
      compute. */
  datatype Codec = Codec(json: Value -> string, base64url: string -> string)
}
