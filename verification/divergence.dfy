/**
 * Where the two `proxy` views differ: the standalone view drops the caller's
 * Host and Content-Length, the configuration-driven view forwards them.
 */
module Divergence {
  import opened Wrappers
  import opened Ascii
  import opened Headers
  import opened Forwarding
  import ProxyServer
  import AppRoutes
  import opened AppConfig

  const SpoofingHeaders: seq<Header> := [("Host", "evil.example"), ("Content-Length", "999")]

  /**
   * A caller sending `Host: evil.example` and `Content-Length: 999`: neither
   * is in the headers the standalone view hands to `requests.request`, both
   * are in the headers the configuration-driven view hands to it, whatever
   * its default headers.
   */
  lemma HostAndContentLengthHandling(defaults: seq<Header>)
    requires IsDict(defaults)
    ensures "Host" !in Names(ProxyServer.OutboundHeaders(SpoofingHeaders))
    ensures "Content-Length" !in Names(ProxyServer.OutboundHeaders(SpoofingHeaders))
    ensures Get(AppRoutes.OutboundHeaders(defaults, SpoofingHeaders), "Host") == Some("evil.example")
    ensures Get(AppRoutes.OutboundHeaders(defaults, SpoofingHeaders), "Content-Length") == Some("999")
  {
    assert Lower("Host") == "host";
    assert Lower("Content-Length") == "content-length";
    assert Names(SpoofingHeaders) == ["Host", "Content-Length"];
  }

  /** A DELETE whose three-octet body is announced by its Content-Length header. */
  const DeleteWithBody := InboundRequest(DELETE, "states/light.kitchen", [], [("Content-Length", "3")], [1, 2, 3])

  /**
   * As written, the configuration-driven view drops the body of a DELETE but
   * still hands the caller's `Content-Length: 3` to `requests.request`, which
   * keeps a given Content-Length when there is no body, so the upstream is
   * told to expect three octets that never come.
   */
  lemma StaleContentLengthAsWritten(cfg: Config)
    requires IsDict(cfg.headers)
    ensures AppRoutes.Outbound(cfg, DeleteWithBody).data == None
    ensures Get(AppRoutes.Outbound(cfg, DeleteWithBody).headers, "Content-Length") == Some("3")
  {
    assert Names(DeleteWithBody.headers) == ["Content-Length"];
  }

  /** With the corrected merge the headers handed to `requests.request` for the same request contain no Content-Length. */
  lemma StaleContentLengthCorrected(parsed: map<string, JsonValue>)
    requires Configure(parsed).Ok?
    ensures AppRoutes.CorrectedOutbound(Configure(parsed).value, DeleteWithBody).data == None
    ensures "Content-Length" !in Names(AppRoutes.CorrectedOutbound(Configure(parsed).value, DeleteWithBody).headers)
  {
    AppRoutes.ConfiguredDefaultsAllowed(parsed);
  }
}
