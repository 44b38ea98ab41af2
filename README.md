# rproxy routing core in Dafny

A model of the request routing in `rproxy.js`, a small Node.js reverse proxy.
Each request is matched against an ordered table of mappings. A mapping has an
optional `host`, an optional path pattern `pathregex`, an optional
`pathreplace` and a `route.target`. The first mapping whose host check and
path check both pass wins. With no winner the proxy answers 404 with an empty
body. Otherwise the request URL is rewritten when the mapping has a
`pathreplace`, and the request goes to the mapping's target. At start-up a
plaintext listener is always bound. A TLS listener in front of it is bound
only when both the private key and the certificate were loaded.

Modules:

- `Wrappers` (`wrappers.dfy`): `Option`, with `None` for an absent property
  or header, and `Truthy`, JavaScript truthiness of a string-valued property
  (defined and non-empty).
- `Pattern` (`pattern.dfy`): path patterns. `AnchorStart` is `/^/`.
  `SegmentPrefix(p)` is `/^p(\/|$)/`, the shape of `/^\/cms(\/|$)/` and
  `/^\/site(\/|$)/`. `MatchSpan` gives the span of the leftmost match.
  `Replace` is `String.prototype.replace` with a non-global pattern.
- `Router` (`router.dfy`): the `Rule` datatype and the host and path checks.
  `FirstMatch` is the specification of the search. `FindMapping` is the search
  loop of `findMapping`. It takes the `Host` header and the URL as values,
  because those are the only fields of `req` that `findMapping` reads. `Rewrite` gives the forwarded URL. `Dispatch` is the
  whole decision, either `NotFound` or `Forward(target, url)`. The lemmas
  relate these.
- `Proxy` (`proxy.dfy`): `Request`, whose `url` field is overwritten in place;
  `Response`, with `writeHead` and `end`; and `ProxyHandler`. The handler's
  call to the forwarding library is represented by the `Outcome` it returns.
- `Mappings` (`mappings.dfy`): the shipped table and how it routes every URL.
- `Listeners` (`listeners.dfy`): filling `sslOptions` and the decision to
  start the TLS listener.

The rule's pattern is a field of the rule. The rewrite therefore uses the very
pattern that matched, by construction.

The catch-all pattern is `/^/`, which matches the empty string at index 0,
so `/foo` becomes `/site/foo` (rproxy.js:71-72). The code registers no error
handler on the proxy, so the model has no 5xx outcome.

`Mappings.HandleSamples` has no contract and no row: it is a client that
builds a request and a response, calls `ProxyHandler` with the shipped table,
and shows what a caller can conclude from the handler's contract.

## Model

| member | source | states |
|---|---|---|
| `Pattern.MatchSpan` | rproxy.js:141 | every match is anchored at index 0 and lies within the URL; `^` always matches the empty span at 0; `^p(\/|$)` matches exactly when the URL is `p` or starts with `p/`, and the matched text is `p/` or the whole `p` |
| `Pattern.Replace` | rproxy.js:165 | without a match the URL is unchanged; with one, the result keeps the text before and after the matched span and has the replacement exactly in its place |
| `Pattern.ReplaceAnchorStart` | rproxy.js:71-72 | rewriting with `^` puts the replacement in front of the whole URL |
| `Pattern.ReplaceSegmentPrefix` | rproxy.js:165 | rewriting with a segment pattern swaps the leading segment and its `/`, keeping the rest of the URL |
| `Router.HostAdmits` | rproxy.js:138 | no contract of its own: the host condition, false exactly when the rule's host is truthy, not `*`, and differs from the `Host` header; `HostFilterExcludes` and `WildcardTableIgnoresHost` state what follows from it |
| `Router.PathAdmits` | rproxy.js:141 | no contract of its own: the path condition, true exactly when the rule has a pattern and `MatchSpan` finds a match; `NoPatternNeverMatches` states what follows from it |
| `Router.FirstMatch` | rproxy.js:134-146 | the returned index selects the request and no earlier rule does; `None` exactly when no rule selects it |
| `Router.FindMapping` | rproxy.js:134-146 | the loop returns the lowest index whose host check and path check pass, or `None` when none does, and agrees with `FirstMatch` |
| `Router.FirstMatchUnique` | rproxy.js:136-144 | any index that selects the request with no earlier selecting rule is the one the search returns |
| `Router.FirstMatchAppend` | rproxy.js:136-144 | adding rules after the table never changes a match already found |
| `Router.Rewrite` | rproxy.js:163-166 | with no truthy `pathreplace` the URL is unchanged; otherwise the span matched by the rule's own pattern is replaced by `pathreplace` |
| `Router.Dispatch` | rproxy.js:157-168 | no contract of its own: the decision of `proxyHandler`, described by `DispatchNotFound`, `DispatchFirstMatchWins` and `DispatchForward` |
| `Router.DispatchFirstMatchWins` | rproxy.js:157-168 | the request goes to the target of the lowest selecting rule, rewritten by that rule, whatever rules follow |
| `Router.DispatchNotFound` | rproxy.js:157-161 | the outcome is `NotFound` if and only if no rule selects the request |
| `Router.DispatchForward` | rproxy.js:162-168 | a forwarded request goes to the matched rule's `route.target`; its URL is the original when `pathreplace` is absent or empty, and otherwise the original with the matched span replaced |
| `Router.HostFilterExcludes` | rproxy.js:138 | a rule whose truthy host is not `*` and differs from the `Host` header is never chosen, whatever its pattern |
| `Router.NoPatternNeverMatches` | rproxy.js:141 | a rule without `pathregex` is never chosen |
| `Router.WildcardTableIgnoresHost` | rproxy.js:138 | when every rule's host is `*` or absent, the choice does not depend on the `Host` header |
| `Proxy.ProxyHandler` | rproxy.js:156-170 | the outcome is `Dispatch` of the original URL; on `NotFound` the response gets status 404, is ended with nothing written to its body, and the URL is kept; on `Forward` the request URL is overwritten with the forwarded URL and the response is untouched |
| `Mappings.ShippedDispatch` | rproxy.js:54-77 | with the shipped table every request, whatever its host, goes to `http://127.0.0.1:8080`: URLs in the `/cms` or `/site` segment unchanged, all others with `/site` in front |
| `Mappings.ShippedNeverNotFound` | rproxy.js:69-76 | the catch-all rule means the shipped table never answers 404 |
| `Mappings.ShippedPassThroughExample` | rproxy.js:55-68 | `/cms/page` and `/site/x` are forwarded unchanged |
| `Mappings.ShippedCatchAllExample` | rproxy.js:69-76 | `/other`, `/cmsx` and `/foo` are forwarded as `/site/other`, `/site/cmsx` and `/site/foo` |
| `Listeners.StartServers` | rproxy.js:113-200 | the plaintext listener uses the given port; the TLS listener exists if and only if both key and certificate were loaded and are non-empty; it then listens on the TLS port with that key and certificate, adds forwarding headers and sends its traffic to `localhost` on the plaintext port |

## Left out

- The forwarding itself (`proxyServer.web`, `createProxyServer`) is not modelled: it is a call into the `http-proxy` library, and appears only as the `Forward(target, url)` outcome.
- The plaintext proxy's `defaultOptions = { xfwd: true }` (rproxy.js:41-43), and the `X-Forwarded-*` headers it makes `proxyServer.web` add, are not represented. The only `xfwd` in the model is the TLS listener's flag (rproxy.js:197).
- Socket I/O is not modelled: `http.createServer(...).listen`, TLS termination and the loopback hop from the TLS port to the plaintext port.
- Checking for and reading the PEM files is file-system I/O. Each file is a parameter holding its contents, or `None` when the file does not exist.
- Start-up exceptions are not modelled. `readFileSync` on a file that exists but cannot be read (rproxy.js:116, rproxy.js:121) throws, and so does invalid PEM content when the TLS server is created (rproxy.js:188-198); either ends the process. `StartServers` instead always returns a plaintext listener, and a TLS listener for any non-empty key and certificate contents.
- Port parsing with `parseInt(process.argv[...])` and the defaults 80 and 443 are left out. The ports are parameters.
- Colour themes and all console logging are left out, because they are output only.
- General regular expressions are not modelled. Only the pattern shapes used in the table are: `^` and `^prefix(\/|$)`.
- `Pattern.Replace`: treats the replacement text literally, so it does not model the `$&`, `$1` and `$$` substitution patterns of `String.prototype.replace`. The shipped `/site` contains none.
- Concurrent requests are not modelled: the routing keeps no state between requests. Backend failures are not modelled either, because the code registers no handler for them.
