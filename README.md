# vite-plugin-http2: TLS decision and proxy routing

This project models the decision logic of `vite-plugin-http2`, a Vite plugin
that makes the dev server speak HTTPS/HTTP2 and proxies selected routes.
The plugin is one file, `src/index.ts`. The model covers its two pieces of
logic:

- **The `config` hook** (`TlsConfig.ConfigHook`). Outside `serve` it returns
  nothing. An explicit `ssl` pair is returned verbatim. Otherwise it asks the
  certificate utility for `certificateDomain || ['localhost']`. It returns an
  `https` block only when the generated key and certificate are both
  non-empty, and `{}` when generation throws or gives an empty half. The
  certificate utility is a function parameter. The decision records the domain
  argument it was called with, so "never invoked" can be stated.
- **The `configureServer` handlers** (`ProxyRouter`). The request middleware
  walks `Object.entries(options.proxy)` in order. It forwards with the first
  rule whose pattern tests true against a non-empty URL, otherwise it calls
  `next()`. The `upgrade` listener also requires a truthy `ws` on the rule. It
  skips matching rules without one and does nothing if no rule is eligible.
  Both hand the proxy `{...options, ws: undefined}` for object options and
  pass any other value through. `RegExp` testing is a parameter
  `test(pattern, url)`. The two handlers are methods with loops, proved equal
  to the specification functions `RequestAction` and `UpgradeAction`.

Modules: `Wrappers` (Option), `JsValues` (JavaScript values, truthiness,
`typeof … === 'object'`, `?.` access), `PluginOptions` (the factory's
options), `TlsConfig`, `ProxyRouter`.

Behaviour of the code worth noting:

- Patterns are never validated when the plugin loads. `new RegExp(pattern)`
  runs on every event (src/index.ts:83, src/index.ts:100).
- An upgrade needs a truthy `ws` to be eligible, but is forwarded with `ws`
  cleared (src/index.ts:101, src/index.ts:106).
- `localhost` is the fallback only when `certificateDomain` is absent or the
  empty string. An empty array is truthy and is passed on unchanged
  (src/index.ts:57). The domains a user gives are not extended with
  `localhost`.
- Non-object target options are passed through unchanged. `null`
  passes `typeof null === 'object'` and becomes `{ws: undefined}`.
- An empty `proxy` object `{}` is truthy, so the handlers are registered and
  every request goes to `next()`.

## Model

| member | source | states |
|---|---|---|
| `TlsConfig.ConfigHook` | src/index.ts:39-77 | outside `serve`: no config, no generation; explicit `ssl`: that exact pair, no generation; otherwise generation is asked once, for `CertificateDomains`, and `https` is returned iff the generated key and cert are both non-empty, verbatim; otherwise `{}`; never a partial generated pair |
| `TlsConfig.CertificateDomains` | src/index.ts:57 | the argument is the configured domain value when it is truthy, otherwise `['localhost']`; the argument is always truthy |
| `TlsConfig.GeneratorIrrelevantWithoutRequest` | src/index.ts:40-52 | outside `serve`, or with `ssl` given, any two certificate utilities give the same decision and none is asked |
| `TlsConfig.GeneratorConsultedOnlyForRequest` | src/index.ts:56-61 | the decision depends on the certificate utility only through its answer for the requested domains |
| `TlsConfig.RepeatedProvisioningStable` | src/index.ts:56-74 | two runs with the same options whose generations both succeed configure HTTPS both times, for the same requested domains |
| `TlsConfig.GenerationFailureScenario` | src/index.ts:56-76 | a rejected generation for `bad.invalid` yields `{}` and the request is recorded; no error escapes |
| `ProxyRouter.ForwardedOptions` | src/index.ts:88 | the options given to the proxy read `ws` as undefined and every other property as before; objects gain an own `ws`, `null` becomes `{ws: undefined}`, other values pass through unchanged |
| `ProxyRouter.FirstEligible` | src/index.ts:82-93 | the chosen index is in range, its rule is eligible and no earlier rule is; no index means no rule is eligible |
| `ProxyRouter.ConfigureServer` | src/index.ts:79-97 | the middleware is registered iff `proxy` is truthy, the upgrade listener iff also an HTTP server exists, and both read the configured table |
| `ProxyRouter.HandleRequest` | src/index.ts:80-96 | forwards with the lowest-index rule whose pattern matches a non-empty URL, with `ws` cleared, and no earlier rule matches; `next()` exactly when the URL is missing or empty or no pattern matches; never a no-op |
| `ProxyRouter.HandleUpgrade` | src/index.ts:97-112 | forwards with the lowest-index rule that matches a non-empty URL and has a truthy `ws`; earlier rules fail one of the two; no action iff no rule is eligible; never `next()` |
| `ProxyRouter.OnRequestError` | src/index.ts:89 | a forwarding error calls `next(err)` iff `err` is truthy |
| `ProxyRouter.OnUpgradeError` | src/index.ts:107 | a forwarding error on an upgrade is only logged, iff it is truthy, and never passed on |
| `ProxyRouter.FirstEligibleAppend` | src/index.ts:82-93 | in a table extended at the end, the first eligible rule is the old table's, else the extension's shifted by the old length |
| `ProxyRouter.AppendedRulesNeverShadow` | src/index.ts:82-93 | rules appended at the end of the entry order never change a forwarded request or upgrade; a request or upgrade that found no rule is forwarded with the first eligible appended rule, its index shifted by the old table's length |
| `ProxyRouter.EmptyProxyRegistersPassThrough` | src/index.ts:79-112 | a truthy but empty `proxy` object registers both handlers; the middleware then calls `next()` for every request and the upgrade listener leaves every upgrade alone |
| `ProxyRouter.UpgradeNeverBeforeRequest` | src/index.ts:99-101 | an upgrade uses a rule no earlier than a plain request to the same URL would; if a request falls through, the upgrade is left alone |
| `ProxyRouter.AllWsHandlersAgree` | src/index.ts:101-106 | when every rule has a truthy `ws`, both handlers forward with the same rule and options or neither forwards |
| `ProxyRouter.MatchingRuleAbsorbsLaterRules` | src/index.ts:82-91 | a rule matching the URL makes the request forwarded with that rule or an earlier one |
| `ProxyRouter.NothingToMatchPassesThrough` | src/index.ts:82-95 | with an empty table or a missing or empty URL, a request goes to `next()` and an upgrade is left alone |
| `ProxyRouter.ApiAndWsScenarios` | src/index.ts:80-112 | for `^/api/` and `^/ws/` (with `ws`) rules: `/api/users` goes to rule 0, an upgrade on `/ws/chat` to rule 1 with `ws` cleared, an upgrade on `/api/data` is left alone, `/static/app.js` goes to `next()` |

## Left out

- `devcert.certificateFor` is not modelled: no filesystem, trust store or asynchrony. It is a function parameter from the domain argument to `Threw` or `Returned(key, cert)`. The returned `Buffer`s are modelled by their text, which is empty iff the buffer is.
- `http2Proxy.web` and `http2Proxy.ws` are not modelled: no network I/O and no HTTP/2 framing. They appear only as the `Forward` action and, for their error callback, as `OnRequestError` and `OnUpgradeError`.
- JavaScript regular expressions are not modelled. `new RegExp(pattern).test(url)` is the parameter `test`. An invalid pattern throws inside the handler, even when the URL is empty; that exception is not modelled.
- `console.error` and `console.warn` text is not modelled. Only the fact that an upgrade error is logged is kept.
- The async/await wiring and Vite's registration mechanics are not modelled. `server.middlewares.use` and `httpServer.on('upgrade')` are reduced to `ConfigureServer` naming the handlers and their table.
- The `tlsOptions` constant and the `OptionsTypes` type (src/index.ts:6-34) only shape types and are not modelled.
- `Object.entries` lists integer-like keys first, in ascending order. The model takes the entry sequence as given and does not model that reordering.
- The handlers read `options.proxy` on every event. Mutating the options object after registration is not modelled: the table is fixed.
- JavaScript values are reduced to `undefined`, `null`, booleans, numbers without `NaN`, strings and objects with own properties. Prototypes, functions, symbols and BigInt are not modelled. Calling the factory with no options, or with `null` for `proxy` or `ssl`, is modelled as the field being absent.
- RepeatedProvisioningStable: whether a certificate is valid for its domains belongs to the certificate utility, which is not modelled. The lemma states only that both runs request the same domains and configure HTTPS.
