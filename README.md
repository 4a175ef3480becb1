# Consent management for the application router, in Dafny

This project models the consent extension of an application router. Every
authenticated request passes through `consentManagementMiddleware`. The
middleware does one of three things:

- it acts on the user's `accept` or `decline` decision, which arrives in the
  `x-gigya-consent` header;
- it lets the request through when the session already records consent;
- otherwise it fetches the user's consent profile from the Gigya consent
  gateway (the "authority"). It then grants consent implicitly, or serves
  the consent page.

Around this state machine the project models the `gigya` client, which
turns an error envelope from the authority into a thrown error, and the
start-up choice of the authority's service binding and host.

Files:

- `js_value.dfy` (module `JsValue`): the JavaScript values involved. These
  are parsed JSON, session fields, and `undefined` for absent properties.
  The module gives their truthiness, property reads, `hasOwnProperty`,
  `String()` as used in template literals, and both `indexOf` methods.
- `service_binding.dfy` (module `ServiceBinding`): selecting the first
  bound service whose first credential set is tagged `gigya`, the start-up
  assertion, and the host fallback.
- `gigya_client.dfy` (module `GigyaClient`): an `Authority` object stands
  for the network and the gateway. It answers each request through a fixed
  `respond` function and keeps a ghost log of requests. `Gigya` makes one
  call and checks the error envelope.
- `consent_middleware.dfy` (module `ConsentMiddleware`): `Decide` gives the
  whole effect of one request as a value: the new session fields, the
  authority requests sent, and the outcome (`Next`, or `End(status,
  location, body)`). `HandleRequest` is the middleware written step by step
  over a `Session` object, and it is proved to have exactly `Decide`'s
  effect. Lemmas then state the branch-by-branch behaviour and the grant
  invariant, for one request and for a sequence of requests.

Exceptions follow the source's control flow. Each step that can throw
returns an error value, and the middleware turns every error into an empty
500. A failure never changes the grant flag. The profile is cached before
the consent page is built, so a `documentUrl` that String() cannot convert
(an object with an own `toString` member, or an array holding one) answers 500 with the profile
already cached; every other failure leaves the session as it was.

Points where the code's behaviour is easy to misread:

- A decline blocks only when the cached `isRequired` is the string
  `"true"`, compared strictly. A boolean `true` does not block, and the
  decline then grants consent (`NonBlockingDeclineGrants`).
- The header is first tested for truthiness, so an empty header value
  takes the normal path.
- Start-up takes the first tagged binding. It does not check that only one
  binding is tagged. The assertion is on the key's truthiness, so a binding
  named `""` fails it even though it was found.
- A decline with no cached profile (for example, after an accept on a
  fresh session) throws while reading `isRequired`. The result is a 500.

## Model

| member | source | states |
|---|---|---|
| `JsValue.Or` | index.js:12 | `a \|\| b` is `a` when `a` is truthy and `b` otherwise; the result is truthy iff either operand is |
| `JsValue.IndexOf` | index.js:8 | `s.indexOf(p)` is the first position where `p` occurs in `s`; -1 means it occurs nowhere |
| `JsValue.ArrayIndexOf` | index.js:8 | `items.indexOf(x)` is the first index holding a value strictly equal to `x`; -1 means none does |
| `ServiceBinding.TagIndex` | index.js:8 | `tags.indexOf('gigya')` succeeds exactly on arrays and strings, and is non-negative iff the tags list `gigya` (array member or substring); on anything else it throws |
| `ServiceBinding.IsGigyaBinding` | index.js:8 | the `find` test accepts an entry iff its first credential set is truthy and its tags list `gigya`; it throws iff the entry is null or the truthy tags are neither array nor string |
| `ServiceBinding.FindGigyaKey` | index.js:8 | the key found is that of an entry accepted by the test, with every earlier entry rejected; nothing is found iff every entry is rejected; an exception comes from the first entry not rejected |
| `ServiceBinding.LookupFindsEntry` | index.js:10 | with distinct keys, `services[key]` is the value of the entry with that key |
| `ServiceBinding.ResolveHost` | index.js:11-12 | the host is the binding's `credentials.host` when truthy, otherwise the default gateway host |
| `ServiceBinding.SelectService` | index.js:8-12 | start-up fails the assertion iff no binding is tagged or the tagged key is empty; on success the service is the first credential set of the first tagged binding, its credentials exist, and the host is resolved from them |
| `ServiceBinding.SelectServicePropagatesSearchFailure` | index.js:8 | an exception thrown inside `find` is the exception start-up fails with |
| `ServiceBinding.SelectServiceOnFoundKey` | index.js:8-12 | once `find` returns a non-empty key, start-up succeeds iff that binding's first credential set has a non-null `credentials`, and then yields that set and the host resolved from it; otherwise it throws a TypeError |
| `GigyaClient.CheckEnvelope` | index.js:168-172 | a body is returned unchanged iff it is not null, does not hide `hasOwnProperty` with an own member, and has no own `error` property; an error envelope whose members String() converts throws `<error>: <message>`; an error envelope with a member String() cannot convert, a null body and a hidden `hasOwnProperty` each throw a TypeError; any other exception is the `<error>: <message>` one |
| `GigyaClient.Interpret` | index.js:159-172 | `gigya` resolves iff the transport delivered a body that does not hide `hasOwnProperty` and has no own `error` property, and then resolves to that body; a transport failure throws |
| `GigyaClient.Authority.Fetch` | index.js:159-168 | each request is logged once, in order, and answered by the authority's response to it |
| `GigyaClient.Gigya` | index.js:158-173 | one request to `host + url` with the given method and body is made; the result is what `Interpret` gives for the answer |
| `GigyaClient.InvalidKeyEnvelope` | index.js:169-170 | `{error: "invalid_key", message: "bad key"}` throws `invalid_key: bad key` |
| `GigyaClient.NullErrorMemberThrows` | index.js:169-170 | an `error` member that is null still makes the body an error envelope |
| `GigyaClient.ShadowedHasOwnPropertyThrows` | index.js:169 | a body with an own `hasOwnProperty` member throws a TypeError even when it has no `error` member |
| `GigyaClient.UnconvertibleErrorMemberThrowsTypeError` | index.js:169-170 | an `error` member with an own `toString` makes building the message throw a TypeError |
| `ConsentMiddleware.ConsentPageFor` | index.js:143 | the consent page embeds a string `documentUrl` verbatim |
| `ConsentMiddleware.DocumentUrlRendering` | index.js:143 | `PageRenders` and the page for each kind of `documentUrl`: a string is embedded as it is; undefined, null, numbers and booleans as their String() forms; an object renders as `[object Object]` exactly when it has no own `toString`, and otherwise rendering throws; an array renders exactly when each element that is not null or undefined does, the empty array as the empty string and a one-element array as its string element |
| `ConsentMiddleware.ArrayDocumentUrlJoins` | index.js:143 | an array `documentUrl` renders as its elements joined by commas, a null element contributing nothing: `["a", null, "b"]` gives `a,,b` |
| `ConsentMiddleware.Decide` | index.js:176-235 | one request sends at most one authority call; the grant flag stays or becomes `true`; the cached profile changes only after the profile fetch for the request's user; every answer that ends the request is 200, 204 or 500 |
| `ConsentMiddleware.HandleRequest` | index.js:176-235 | the new session fields, the authority requests sent and the outcome are exactly those `Decide` gives for the old session |
| `ConsentMiddleware.DecisionHeaderComesFirst` | index.js:179-210 | with an `accept` or `decline` header the request never passes through, and its outcome and calls do not depend on the grant flag |
| `ConsentMiddleware.OtherHeaderFallsThrough` | index.js:179-207 | any other header value, the empty one included, behaves exactly like no header |
| `ConsentMiddleware.AcceptSubmitsOnce` | index.js:180-191 | accept sends the POST `/consent/config` with `{"isConsentGranted": true}` exactly once; on success the flag becomes true and the answer is an empty 204; on failure the session is unchanged and the answer is 500 |
| `ConsentMiddleware.BlockingDeclineLogsOut` | index.js:192-196 | decline with cached `isRequired === 'true'` answers 204 with `Location` set to the logout endpoint, changes nothing and calls nothing |
| `ConsentMiddleware.NonBlockingDeclineGrants` | index.js:192-202 | decline with any other `isRequired` sets the flag to true and answers 204 without `Location`; decline without a cached profile answers 500 |
| `ConsentMiddleware.GrantedPassesThrough` | index.js:207-210 | with no decision and a truthy flag the request passes through, with no authority call and no session change |
| `ConsentMiddleware.FetchDecides` | index.js:212-234 | otherwise the profile is fetched exactly once; on success it is cached; a truthy `isLoginEnabled` sets the flag and passes through; otherwise the flag is untouched and the consent page for `documentUrl` is served with 200, or a 500 is answered when String() cannot convert `documentUrl`; a failed fetch answers 500 with no change |
| `ConsentMiddleware.FailureChangesNothing` | index.js:214-234 | a 500 is always empty and leaves the grant flag unchanged; it happens iff the one authority call failed, a decline found no cached profile, or the page failed to render; only the last changes the session, by caching the fetched profile |
| `ConsentMiddleware.PassThroughMeansGranted` | index.js:207-224 | `next()` is reached only when the session ends the request with a truthy grant flag |
| `ConsentMiddleware.GrantOnlyOnConsent` | index.js:180-224 | the flag is only ever set to true, and it changes only when consent is given in the request: a successful accept, a non-blocking decline, or a fetched profile with truthy `isLoginEnabled` |
| `ConsentMiddleware.GrantTracesToConsent` | index.js:176-235 | over any sequence of requests, a flag that becomes truthy was set by a request in which consent was given while the flag was still not truthy |
| `ConsentMiddleware.RepeatedBlockingDeclinesNeverGrant` | index.js:192-196 | with a blocking profile cached, any number of declines leaves the session as it was |
| `ConsentMiddleware.ConsentRequiredScenario` | index.js:192-229 | a fresh session whose profile requires consent gets the page for `https://x/doc.pdf` and caches the profile; a decline then redirects to logout and the flag stays undefined |
| `ConsentMiddleware.LoginEnabledScenario` | index.js:214-224 | a fresh session whose profile has `isLoginEnabled: true` passes through with the flag set |
| `ConsentMiddleware.AuthorityErrorScenario` | index.js:214-234 | an error envelope from the profile fetch answers an empty 500 and leaves a fresh session unchanged |
| `ConsentMiddleware.UnrenderablePageScenario` | index.js:214-234 | a profile whose `documentUrl` has an own `toString` is cached, and the request then answers an empty 500 |

## Left out

- Reading `VCAP_SERVICES` or `default-services.json` and parsing them (index.js:7) is I/O. The model starts from the parsed descriptor's own properties, in `Object.keys` order. A descriptor that is not an object is not modelled.
- Router creation, middleware registration and `ar.start()` (index.js:18-21) belong to the host framework.
- The consent page markup, its styles and its in-browser `acceptConsent`/`declineConsent` script (index.js:24-155) are presentation. The page is `ConsentPage(documentUrl)`, known only by the document it embeds; the unused `user` argument is dropped.
- `node-fetch`, `.json()` parsing and the HTTP status of the answer are external. `Authority.respond` gives the parsed body or a failure, and is fixed for the lifetime of one `Authority`: a sequence of requests handled through one object assumes the gateway's answers never change, while the lemmas over many requests take one answer function per request. The credential headers the client attaches (index.js:160-166) are not modelled.
- `req.session.save()` is a no-op on the model state; the external store, its persistence and concurrent requests racing on one session are out of scope.
- `debug` logging has no effect on behaviour and is not modelled; the error message is kept in the error value.
- `next()` is taken not to throw. A synchronous throw from a later stage would be caught and answered with 500 after `next()`; the model does not cover that case.
- The `user` and `routerConfig` request objects are taken to be present, since the host supplies them. The logout endpoint and `req.user.id` are strings.
- ResolveHost: the host is converted to a string once, at start-up. In index.js a truthy `credentials.host` that String() cannot convert (an object with an own `toString`, or an array holding one) is interpolated, and throws, on every authority call instead; such a host is not modelled.
- JavaScript numbers are unbounded integers here: there are no fractions, no NaN and no -0, integers above 2^53 keep their precision, and String() never uses the exponent form it gives at 1e21 and above.
- Property reads see only the own members of objects. The prototype properties of arrays and strings (such as `length`) are not modelled. The methods index.js calls through the prototype are: `indexOf` on arrays and strings, which parsed JSON cannot hide because arrays and strings carry no named own members, so any other truthy tags value throws (a falsy one is rejected before `indexOf` is called); `hasOwnProperty` on the authority's body, which an own member of that name hides, and the call then throws; and the `toString` used by String(), which an own member hides in the same way.
