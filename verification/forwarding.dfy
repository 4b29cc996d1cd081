/**
 * The request-shaping and response-relaying rules shared by both `proxy`
 * handlers: the upstream URL, which methods forward a body or query
 * parameters, the caller-header filter, the hop-by-hop response filter and
 * the fixed failure response.
 */
module Forwarding {
  import opened Wrappers
  import opened Ascii
  import opened Headers

  /**
   * The methods that reach a `proxy` view. The route lists GET, POST, PUT,
   * DELETE and PATCH; Werkzeug adds HEAD to every rule that allows GET, so a
   * HEAD request reaches the view as well.
   */
  datatype Method = GET | HEAD | POST | PUT | DELETE | PATCH

  type Bytes = seq<byte>

  /** One query parameter of the inbound URL, as `request.args` yields it. */
  type QueryParam = (string, string)

  /** What the view reads from Flask: `request.method` (as `verb`), `<path:subpath>`, `request.args`, `request.headers`, `request.get_data()`. */
  datatype InboundRequest = InboundRequest(
    verb: Method,
    subpath: string,
    args: seq<QueryParam>,
    headers: seq<Header>,
    body: Bytes)

  /** The arguments handed to `requests.request`; `None` arguments are `Option.None`. */
  datatype OutboundRequest = OutboundRequest(
    verb: Method,
    url: string,
    headers: seq<Header>,
    params: Option<seq<QueryParam>>,
    data: Option<Bytes>,
    allowRedirects: bool)

  /**
   * What the single upstream call produced: a complete reply, or a
   * `RequestException`. The body of a reply is `response.content`, the body
   * after the HTTP client has undone any gzip or deflate Content-Encoding.
   */
  datatype Upstream =
    | Reply(status: int, headers: seq<Header>, body: Bytes)
    | TransportError

  /** Status, header list and body given to the Flask `Response`. */
  datatype ProxyResponse = ProxyResponse(status: int, headers: seq<Header>, body: Bytes)

  const ApiSegment := "/api/"

  /** `f"{base}/api/{subpath}"`: the subpath is appended as received, with no normalisation. */
  function UpstreamUrl(base: string, subpath: string): (url: string)
    ensures |url| == |base| + |ApiSegment| + |subpath|
    ensures url[..|base|] == base
    ensures url[|base|..|base| + |ApiSegment|] == ApiSegment
    ensures url[|base| + |ApiSegment|..] == subpath
  {
    base + ApiSegment + subpath
  }

  /** Reading the subpath back out of an upstream URL built on `base`. */
  function SubpathOf(base: string, url: string): string
    requires |base| + |ApiSegment| <= |url|
  {
    url[|base| + |ApiSegment|..]
  }

  /** The subpath is recoverable from the URL, so distinct subpaths give distinct URL strings. */
  lemma UpstreamUrlInjective(base: string, s: string, t: string)
    ensures SubpathOf(base, UpstreamUrl(base, s)) == s
    ensures UpstreamUrl(base, s) == UpstreamUrl(base, t) ==> s == t
  {
    if UpstreamUrl(base, s) == UpstreamUrl(base, t) {
      assert SubpathOf(base, UpstreamUrl(base, s)) == SubpathOf(base, UpstreamUrl(base, t));
    }
  }

  /** The methods listed as body-carrying by both handlers. */
  const BodyMethods: set<Method> := {POST, PUT, PATCH}

  /** `request.get_data() if request.method in ['POST', 'PUT', 'PATCH'] else None`. */
  function ForwardedBody(m: Method, body: Bytes): (data: Option<Bytes>)
    ensures data.Some? <==> m == POST || m == PUT || m == PATCH
    ensures data.Some? ==> data.value == body
  {
    if m in BodyMethods then Some(body) else None
  }

  /** `request.args if request.method == 'GET' else None`. */
  function ForwardedParams(m: Method, args: seq<QueryParam>): (params: Option<seq<QueryParam>>)
    ensures params.Some? <==> m == GET
    ensures params.Some? ==> params.value == args
  {
    if m == GET then Some(args) else None
  }

  /** Body and query parameters are never forwarded together: the two method sets are disjoint. */
  lemma BodyAndParamsExclusive(req: InboundRequest)
    ensures ForwardedBody(req.verb, req.body).None? || ForwardedParams(req.verb, req.args).None?
    ensures req.verb == DELETE || req.verb == HEAD ==>
              ForwardedBody(req.verb, req.body).None? && ForwardedParams(req.verb, req.args).None?
  {
  }

  /** Caller headers that the standalone handler never forwards, compared lower-cased. */
  const DroppedCallerHeaders: set<string> := {"host", "content-length"}

  /**
   * `{key: value for key, value in request.headers if key.lower() not in
   * ['host', 'content-length']}`: a dict of the caller's headers without Host
   * and Content-Length in any letter case; every other name keeps the value
   * of its last pair.
   */
  function FilteredCallerHeaders(hs: seq<Header>): (d: seq<Header>)
    ensures IsDict(d)
    ensures forall k :: k in Names(d) ==> Lower(k) !in DroppedCallerHeaders
    ensures forall k :: Lower(k) !in DroppedCallerHeaders ==> Get(d, k) == Get(hs, k)
  {
    var kept := Without(hs, DroppedCallerHeaders);
    var d := Merge([], kept);
    forall k
      ensures k in Names(d) ==> Lower(k) !in DroppedCallerHeaders
      ensures Lower(k) !in DroppedCallerHeaders ==> Get(d, k) == Get(hs, k)
    {
      MergeNames([], kept, k);
      WithoutGet(hs, DroppedCallerHeaders, k);
    }
    d
  }

  /** Response headers that are hop-by-hop and never relayed, compared lower-cased. */
  const HopByHop: set<string> := {"content-encoding", "content-length", "transfer-encoding", "connection"}

  /** The fixed text of the response to a transport failure. */
  const FailureText := "Failed to forward request."

  /** The failure response: status 500, no headers of the handler's own, the fixed text as UTF-8. */
  function FailureResponse(): (r: ProxyResponse)
    ensures r.status == 500 && r.headers == []
    ensures forall i :: 0 <= i < |r.body| ==> r.body[i] < 128
    ensures DecodeAscii(r.body) == FailureText
  {
    assert IsAscii(FailureText);
    AsciiRoundTrip(FailureText);
    ProxyResponse(500, [], EncodeAscii(FailureText))
  }

  /**
   * The `try`/`except` around the upstream call: a reply is relayed with its
   * status and body verbatim and its hop-by-hop headers removed; a transport
   * failure becomes the fixed 500 response. Nothing of a failed call leaks
   * into the response.
   */
  function Relay(u: Upstream): (r: ProxyResponse)
    ensures u.Reply? ==> r.status == u.status && r.body == u.body
    ensures u.Reply? ==> forall h :: h in r.headers <==> h in u.headers && Lower(h.0) !in HopByHop
    ensures u.TransportError? ==> r == FailureResponse()
  {
    match u
    case Reply(status, headers, body) => ProxyResponse(status, Without(headers, HopByHop), body)
    case TransportError => FailureResponse()
  }

  /** The relayed headers are the upstream headers in their order, each hop-by-hop one cut out. */
  lemma RelayPreservesOrder(a: seq<Header>, b: seq<Header>, status: int, body: Bytes)
    ensures Relay(Reply(status, a + b, body)).headers
            == Relay(Reply(status, a, body)).headers + Relay(Reply(status, b, body)).headers
  {
    WithoutConcat(a, b, HopByHop);
  }

  /** A redirect is relayed, not followed: a 3xx and its Location header come back unchanged. */
  lemma RedirectRelayed(status: int, headers: seq<Header>, body: Bytes, location: string)
    requires 300 <= status < 400
    requires ("Location", location) in headers
    ensures Relay(Reply(status, headers, body)).status == status
    ensures ("Location", location) in Relay(Reply(status, headers, body)).headers
  {
    assert |Lower("Location")| == 8;
  }
}
