# tinyProxy forwarding rules in Dafny

tinyProxy is a single-upstream HTTP forwarding proxy. Its `proxy` view takes a
request under `/api/<subpath>` and does five things:

- it builds the upstream URL;
- it chooses, by method, whether to forward the body and the query parameters;
- it merges its default headers (a bearer token and a JSON content type) with the caller's headers;
- it makes one upstream call with redirects disabled;
- it relays the reply without the hop-by-hop response headers, or answers a transport failure with a fixed 500.

The view exists twice:

- `proxy_server/main.py` has the base URL and the headers hard-coded, and drops the caller's Host and Content-Length before the merge.
- `app/routes.py` takes the base URL and the headers from the settings that `app/config.py` derives from the configuration file, and merges all caller headers.

This project models both views and the configuration step as pure functions, and proves what they promise.

Modules, one per concern:

- `Wrappers` holds `Option` and `Result`.
- `Ascii` holds the `.lower()` folding of header names and the encoding of the fixed error text.
- `Headers` holds header lists and Python dicts of headers:
  - a dict is an insertion-ordered list with unique names;
  - `Put` is `d[k] = v`;
  - `Merge` is `{**d, **e}`;
  - `Get` is what a dict built from a list holds for a name;
  - `Without` is the lower-cased deny-list filter.
- `Forwarding` holds the rules both views share: URL, body and parameter selection, the caller-header filter, the relay, and the failure response.
- `ProxyServer` models `proxy_server/main.py`.
- `AppConfig` models the pure part of `configure_app`.
- `AppRoutes` models `app/routes.py`.
- `Divergence` states where the two views differ.

Modelling choices:

- The upstream call is a parameter `transport: OutboundRequest -> Upstream`. The view applies it exactly once, to the request it built.
- Because every view is a pure function, a repeated request against a deterministic upstream gives the same response.
- The header overlay compares names exactly, as Python dict keys do. Only the Host/Content-Length drop and the hop-by-hop filter compare lower-cased names. Werkzeug's title-casing of inbound names and the case folding `requests` applies before sending are left out.
- HEAD is a `Method` too. Werkzeug adds HEAD to every rule that allows GET, so a HEAD request reaches the view, and it forwards neither body nor parameters.
- The two views merge the caller's headers differently, and both merges are modelled.
- The body of a reply is `response.content`: the body after `requests` has undone any gzip or deflate Content-Encoding. "Verbatim" below means that this decoded body is copied unchanged.
- Query parameters are modelled as the argument handed to `requests.request`, not as the query string the upstream receives.

## Model

| member | source | states |
|---|---|---|
| Ascii.Lower | proxy_server/main.py:25 | the folded name has the same length as the original and contains no upper-case ASCII letter |
| Ascii.LowerDecidesEqualIgnoringCase | proxy_server/main.py:38-40 | two names have equal lower-cased forms exactly when they agree letter by letter up to ASCII case, so the deny-lists match in any letter case |
| Ascii.AsciiRoundTrip | proxy_server/main.py:48 | encoding the ASCII failure text as octets and decoding it gives back the same text |
| Headers.Get | proxy_server/main.py:25 | a name has a value exactly when some pair carries it, and that value comes from such a pair |
| Headers.GetLastWins | proxy_server/main.py:25 | in a dict comprehension the last pair for a name decides its value |
| Headers.DictGet | proxy_server/main.py:31 | in a dict every entry is what a lookup of its name finds |
| Headers.Put | proxy_server/main.py:25 | assigning a key yields a dict in which that key has the new value and every other key keeps its value; an existing key keeps its position, and a new key is appended |
| Headers.Merge | proxy_server/main.py:31 | in `{**d, **e}` a name given by `e` maps to `e`'s last value for it and any other name keeps `d`'s value; the result is a dict, and the names of `d` stay at the front in their order |
| Headers.MergeNames | proxy_server/main.py:31 | the merged dict names exactly the names of its two sides |
| Headers.Without | proxy_server/main.py:38-40 | a header survives the filter exactly when it was in the input and its lower-cased name is not denied |
| Headers.WithoutConcat | proxy_server/main.py:39-40 | filtering a concatenation is concatenating the filtered parts, so the survivors keep their relative order and their casing |
| Headers.WithoutKeepsAllowed | app/routes.py:26-27 | a header list with no denied name passes through unchanged |
| Headers.WithoutIdempotent | app/routes.py:26-27 | filtering twice gives the same list as filtering once |
| Headers.WithoutGet | proxy_server/main.py:25 | a denied name is absent after filtering, and the value of every other name is unchanged by it |
| Forwarding.UpstreamUrl | proxy_server/main.py:19 | the URL string handed to `requests.request` is the base, then `/api/`, then the subpath as the view receives it, with nothing added or changed |
| Forwarding.UpstreamUrlInjective | proxy_server/main.py:19 | the subpath can be read back from the URL string, so distinct subpaths give distinct URL strings handed to `requests.request` |
| Forwarding.ForwardedBody | proxy_server/main.py:23 | a body is forwarded exactly for POST, PUT and PATCH, and then byte for byte |
| Forwarding.ForwardedParams | proxy_server/main.py:24 | query parameters are handed to `requests.request` exactly for GET, and then unchanged |
| Forwarding.BodyAndParamsExclusive | app/routes.py:10-11 | no request forwards both a body and parameters; DELETE and HEAD forward neither |
| Forwarding.FilteredCallerHeaders | proxy_server/main.py:25 | the caller's dict has no name that lower-cases to `host` or `content-length`, and every other caller name keeps its caller value |
| Forwarding.FailureResponse | proxy_server/main.py:48 | status 500, no headers of the view's own, and a body that reads exactly `Failed to forward request.` |
| Forwarding.Relay | proxy_server/main.py:37-48 | a reply keeps its status and its decoded body (`response.content`) verbatim, and a header survives exactly when its lower-cased name is not hop-by-hop; a transport error gives the failure response and nothing of the upstream |
| Forwarding.RelayPreservesOrder | app/routes.py:25-27 | the relayed headers are the upstream headers in their original order with the hop-by-hop ones cut out |
| Forwarding.RedirectRelayed | proxy_server/main.py:34-43 | a 3xx reply is relayed with its status and its Location header unchanged rather than followed |
| ProxyServer.DefaultHeadersFacts | proxy_server/main.py:12-15 | `HEADERS` is a dict naming Authorization and Content-Type, neither of which is Host or Content-Length |
| ProxyServer.OutboundHeaders | proxy_server/main.py:25-31 | no caller Host or Content-Length, in any letter case, is handed to the upstream call; any other caller name carries the caller's value; a name the caller omits carries its default; the defaults stay at the front |
| ProxyServer.Outbound | proxy_server/main.py:19-35 | same method; URL on the hard-coded base; body only for POST, PUT and PATCH; parameters only for GET; redirects off; headers as above |
| ProxyServer.Proxy | proxy_server/main.py:18-48 | the response comes from one upstream call with the built request: status and decoded body (`response.content`) verbatim, hop-by-hop headers removed, or the failure response |
| ProxyServer.CallerAuthorizationWins | proxy_server/main.py:31 | a caller's Authorization value replaces the default bearer token |
| AppConfig.Decimal | app/config.py:14 | `str()` of a non-negative int is a non-empty string of decimal digits with no leading zero |
| AppConfig.DecimalRoundTrip | app/config.py:14 | reading the rendered digits gives back the number |
| AppConfig.Str | app/config.py:14 | a string renders as itself; an int renders as its decimal digits, after a minus sign when it is negative, which denote its value; booleans render as `True`/`False` and null as `None` |
| AppConfig.Configure | app/config.py:10-23 | the settings are produced exactly when `target_server`, `port` and `auth_token` are all present. Otherwise the error names the first missing one in reading order. On success the three values are copied unchanged, and `HEADERS` is a two-entry dict with `Bearer <auth_token>` and `application/json` |
| AppConfig.ConfigureIgnoresExtraKeys | app/config.py:10-16 | keys other than the three required ones do not affect the outcome |
| AppRoutes.OutboundHeaders | app/routes.py:12 | every caller name, Host and Content-Length included, maps to the caller's value; every default the caller omits keeps its value and position; no other name occurs |
| AppRoutes.Outbound | app/routes.py:6-22 | same method; URL on the configured `TARGET_SERVER`; body only for POST, PUT and PATCH; parameters only for GET; redirects off; headers as above |
| AppRoutes.Proxy | app/routes.py:5-35 | the response comes from one upstream call with the built request: status and decoded body (`response.content`) verbatim, hop-by-hop headers removed, or the failure response |
| AppRoutes.ConfiguredAuthorization | app/routes.py:6-12 | with settings from the configuration step, a caller without Authorization is handed to `requests.request` with `Bearer <auth_token>` and a URL on `target_server` |
| AppRoutes.ConfiguredDefaultsAllowed | app/config.py:13-16 | the configured default headers name neither Host nor Content-Length |
| AppRoutes.CorrectedOutboundHeaders | app/routes.py:12 | the evidently intended merge: no caller Host or Content-Length is in the headers handed to `requests.request`, other caller names win, omitted names keep their defaults |
| AppRoutes.CorrectedOutbound | app/routes.py:10-18 | with the corrected merge, a request that forwards no body is handed to `requests.request` with headers that contain no Content-Length |
| Divergence.HostAndContentLengthHandling | proxy_server/main.py:25 | a caller's `Host: evil.example` and `Content-Length: 999` are never in the headers the standalone view hands to `requests.request`, and both are in the headers the configuration-driven view hands to it |
| Divergence.StaleContentLengthAsWritten | app/routes.py:10-12 | as written, a DELETE with a 3-octet body is handed to `requests.request` with no body but with the caller's `Content-Length: 3` in its headers |
| Divergence.StaleContentLengthCorrected | app/routes.py:10-12 | with the corrected merge and configured defaults, the headers handed to `requests.request` for the same DELETE contain no Content-Length |

## Findings

| source | as written | input that shows it | evidently intended | confidence | as-written member | corrected member |
|---|---|---|---|---|---|---|
| app/routes.py:12 | All caller headers are merged unfiltered, including Content-Length. Lines 10-11 drop the body for GET, HEAD and DELETE. | DELETE `/api/states/light.kitchen` with body `01 02 03` and `Content-Length: 3` | Drop the caller's Host and Content-Length, as `proxy_server/main.py:25` does | medium, not executed. The upstream gets a request that announces three octets and sends none, because the HTTP client keeps a caller-given Content-Length when there is no body | Divergence.StaleContentLengthAsWritten | AppRoutes.CorrectedOutbound |

`AppRoutes.Outbound` and `AppRoutes.Proxy` model the code as written. The corrected merge sits beside them.

## Left out

- The network call (`requests.request`), DNS, TLS and timeouts. They are the `transport` parameter, whose outcome is a complete reply or a transport error.
- Flask plumbing: routing, the 404 and 405 answers, the automatic OPTIONS answer, `current_app`, threaded serving and `app.run`. Also the headers Flask's `Response` adds on its own, such as the default Content-Type and a computed Content-Length.
- Logging. It has no behaviour to state.
- Reading `instance/config.json`, JSON parsing, and the `FileNotFoundError` branch. This is file I/O; the model starts from the parsed object. A top-level JSON value that is not an object is also left out.
- Configure: leaves out that `app.config` keeps the settings assigned before a `KeyError`, because startup aborts on that error anyway.
- Str: covers strings, ints, booleans and null only. JSON floats, arrays and objects are left out, because their Python `str()` forms are not needed by a working configuration.
- Library internals of `requests` and urllib3:
  - the case-insensitive folding of outbound header names;
  - the session's default headers;
  - the recomputed Content-Length: `requests` overwrites Content-Length whenever the body is non-empty, and adds `Content-Length: 0` to a body-less request whose method is not GET or HEAD. Every statement about outbound headers is about the `headers` argument handed to `requests.request`;
  - the encoding of query parameters;
  - the content decoding (gzip, deflate) that turns the wire body into `response.content`;
  - multi-valued response headers.
  The model stops at the arguments the view hands to `requests.request`, and takes response headers as the given list.
- How Flask canonicalises inbound header names. Header lists are taken as given. Werkzeug's inbound header names are unique, so the difference between `**request.headers` (first value) and the comprehension (last value) does not arise, and both are modelled as "last value wins".
- Ascii.Lower: folds only `A`–`Z`, while Python's `str.lower()` folds all of Unicode. HTTP header names are ASCII tokens, for which the two agree.
- Forwarding.ForwardedParams: promises only what is handed to `requests.request`. `request.args` is a Werkzeug MultiDict, and `requests` reads it through `.items()`, which keeps only the first value of a repeated key, so `GET /api/x?a=1&a=2` reaches the upstream as `?a=1`. This collapse happens inside the HTTP client, which is not part of this model.
- Forwarding.UpstreamUrl: promises only the URL string handed to `requests.request`, not the path the upstream receives. Werkzeug percent-decodes the inbound path before routing, so `/api/a%3Fb` gives the subpath `a?b`. `requests` and urllib3 then re-parse the URL string: a decoded `?` starts a query, a decoded `#` starts a fragment that is cut off, and dot segments are removed, so `/api/%2E%2E/admin` reaches the upstream as `/admin`, outside `/api/`. These client and framework steps are not part of this model.
- Exceptions other than `requests.exceptions.RequestException` are not modelled. The views catch only that class, so any other exception escapes, and Flask answers with its own 500 page instead of `Failed to forward request.`. One example is an `auth_token` with a character outside Latin-1, such as `tok€n`: the HTTP client raises `UnicodeEncodeError` while encoding the Authorization header. The `Upstream` type has only the two outcomes that the `try` block relays.
- Listening on `PROXY_PORT`. The port is carried as a value only.
