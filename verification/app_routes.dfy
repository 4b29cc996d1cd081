/**
 * The configuration-driven proxy: the same `proxy` view as the standalone
 * one, except that the upstream base URL and the default headers come from
 * the application settings and all of the caller's headers are overlaid on
 * the defaults, Host and Content-Length included.
 */
module AppRoutes {
  import opened Wrappers
  import opened Ascii
  import opened Headers
  import opened Forwarding
  import opened AppConfig

  /**
   * `{**current_app.config['HEADERS'], **request.headers}`: every name the
   * caller supplies maps to the caller's value, with nothing removed; every
   * default name the caller does not supply keeps its default value and its
   * position at the front; no other name occurs.
   */
  function OutboundHeaders(defaults: seq<Header>, hs: seq<Header>): (out: seq<Header>)
    requires IsDict(defaults)
    ensures IsDict(out)
    ensures forall k :: k in Names(hs) ==> Get(out, k) == Get(hs, k)
    ensures forall k :: k !in Names(hs) ==> Get(out, k) == Get(defaults, k)
    ensures |defaults| <= |out| && forall i :: 0 <= i < |defaults| ==> out[i].0 == defaults[i].0
  {
    Merge(defaults, hs)
  }

  /** The arguments the view passes to `requests.request`, given the application settings. */
  function Outbound(cfg: Config, req: InboundRequest): (o: OutboundRequest)
    requires IsDict(cfg.headers)
    ensures o.verb == req.verb
    ensures o.url == UpstreamUrl(Str(cfg.targetServer), req.subpath)
    ensures o.data.Some? <==> req.verb in BodyMethods
    ensures o.data.Some? ==> o.data.value == req.body
    ensures o.params.Some? <==> req.verb == GET
    ensures o.params.Some? ==> o.params.value == req.args
    ensures !o.allowRedirects
    ensures o.headers == OutboundHeaders(cfg.headers, req.headers)
  {
    OutboundRequest(
      req.verb,
      UpstreamUrl(Str(cfg.targetServer), req.subpath),
      OutboundHeaders(cfg.headers, req.headers),
      ForwardedParams(req.verb, req.args),
      ForwardedBody(req.verb, req.body),
      false)
  }

  /**
   * The whole view: exactly one upstream call, made with `Outbound(cfg, req)`,
   * whose outcome is relayed or mapped to the fixed failure response.
   */
  function Proxy(cfg: Config, req: InboundRequest, transport: OutboundRequest -> Upstream): (r: ProxyResponse)
    requires IsDict(cfg.headers)
    ensures transport(Outbound(cfg, req)).Reply? ==>
              r.status == transport(Outbound(cfg, req)).status && r.body == transport(Outbound(cfg, req)).body
    ensures transport(Outbound(cfg, req)).Reply? ==>
              r.headers == Without(transport(Outbound(cfg, req)).headers, HopByHop)
    ensures transport(Outbound(cfg, req)).TransportError? ==> r == FailureResponse()
  {
    Relay(transport(Outbound(cfg, req)))
  }

  /**
   * From configuration to the wire: with settings from `Configure`, a caller
   * that sends no Authorization header is forwarded with `Bearer <auth_token>`,
   * to a URL on `target_server`.
   */
  lemma ConfiguredAuthorization(parsed: map<string, JsonValue>, req: InboundRequest)
    requires Configure(parsed).Ok?
    requires "Authorization" !in Names(req.headers)
    ensures IsDict(Configure(parsed).value.headers)
    ensures Get(Outbound(Configure(parsed).value, req).headers, "Authorization")
            == Some("Bearer " + Str(parsed["auth_token"]))
    ensures Outbound(Configure(parsed).value, req).url == UpstreamUrl(Str(parsed["target_server"]), req.subpath)
  {
  }

  /**
   * The headers the view evidently intends: the caller's headers filtered
   * as the standalone proxy filters them, then overlaid on the defaults.
   * A caller's Host or Content-Length is never handed to `requests.request`,
   * so a dropped body cannot leave a stale Content-Length behind.
   */
  function CorrectedOutboundHeaders(defaults: seq<Header>, hs: seq<Header>): (out: seq<Header>)
    requires IsDict(defaults)
    requires forall k :: k in Names(defaults) ==> Lower(k) !in DroppedCallerHeaders
    ensures IsDict(out)
    ensures forall k :: Lower(k) in DroppedCallerHeaders ==> k !in Names(out)
    ensures forall k :: Lower(k) !in DroppedCallerHeaders && k in Names(hs) ==> Get(out, k) == Get(hs, k)
    ensures forall k :: k !in Names(hs) ==> Get(out, k) == Get(defaults, k)
  {
    var caller := FilteredCallerHeaders(hs);
    var out := Merge(defaults, caller);
    forall k
      ensures Lower(k) in DroppedCallerHeaders ==> k !in Names(out)
      ensures k !in Names(hs) ==> Get(out, k) == Get(defaults, k)
    {
      MergeNames(defaults, caller, k);
    }
    out
  }

  /** The configured defaults name neither Host nor Content-Length. */
  lemma ConfiguredDefaultsAllowed(parsed: map<string, JsonValue>)
    requires Configure(parsed).Ok?
    ensures forall k :: k in Names(Configure(parsed).value.headers) ==> Lower(k) !in DroppedCallerHeaders
  {
    var hs := Configure(parsed).value.headers;
    assert Names(hs) == ["Authorization", "Content-Type"];
    assert |Lower("Authorization")| == 13 && |Lower("Content-Type")| == 12;
  }

  /** The view with the corrected header merge and everything else as written. */
  function CorrectedOutbound(cfg: Config, req: InboundRequest): (o: OutboundRequest)
    requires IsDict(cfg.headers)
    requires forall k :: k in Names(cfg.headers) ==> Lower(k) !in DroppedCallerHeaders
    ensures o.data.None? ==> "Content-Length" !in Names(o.headers)
    ensures forall k :: Lower(k) in DroppedCallerHeaders ==> k !in Names(o.headers)
    ensures o == Outbound(cfg, req).(headers := CorrectedOutboundHeaders(cfg.headers, req.headers))
  {
    assert Lower("Content-Length") == "content-length";
    Outbound(cfg, req).(headers := CorrectedOutboundHeaders(cfg.headers, req.headers))
  }
}
