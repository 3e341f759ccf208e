# DemoUefTool core, modelled in Dafny

DemoUefTool is an LTI 1.3 tool with an Ultra Extension Framework (UEF) integration
for Blackboard Learn. This project models the four parts of it that make decisions:

- **The UEF integration script** (`UefDemo`, `UefProperties`, `Content`). This is the
  page script the tool runs inside Learn Ultra. It is modelled as a step function from
  a state and one input to a new state and the ordered list of messages posted. The
  state holds the channel flag, `panelId`, `modalId`, and the `localStorage` items
  `context` and `action`. An input is a window message, a channel message or a
  `storage` event. The content trees it sends keep their tags, `src` addresses, sizes,
  link targets, click callback ids and texts.
- **The id_token payload** (`JwtPayload`). This splits a token into segments, reads
  the header and body, and extracts the fixed LTI 1.3 claims, including the
  array-or-string `aud` rule.
- **The LTI Advantage helpers** (`LtiAdvantage`):
  - the OIDC login URL;
  - the authorization-code redirect and the token request;
  - the decision whether a payload is verified;
  - the platform URL taken from a payload.
- **The server's route handlers** (`Server`). `/login`, `/launches`, `/auth-done` and
  `/handleUefPanelAction` are written as request-to-response functions.

Supporting modules:

- `Js` models JavaScript values: JSON plus `undefined`. It also gives property reads,
  which fail exactly where JavaScript throws a TypeError, plus strict equality,
  `String(v)` and truthiness.
- `Strings` provides split, join and suffixes.
- `Query` gives query strings written and read back.

Library code is not modelled. This covers:

- JSON parse and stringify;
- base64;
- `encodeURIComponent`/`decodeURIComponent`;
- the WHATWG URL parser;
- the `URLSearchParams` serializer;
- `jsonwebtoken` + `pem-jwk`;
- axios.

Each of these is a field of the `Js.Lib` or `LtiAdvantage.Net` record, that is, an
arbitrary function. Every property holds for every choice of them, except where a
lemma names a hypothesis, such as "the encoder never writes `&`". The configuration
module is a `Config` record parameter. The values of `uuid()` are parameters.

Where the code and its description disagree, the model follows the code:

- A malformed id_token makes the payload constructor throw inside
  `getJWTPayload`, before its `try`. The `/launches` promise then rejects and no
  response is sent. The request does not get the error text (`Server.Launches`,
  `LtiAdvantage.GetJwtPayload`).
- A client-id mismatch resolves to `null`, not to an unverified payload. `/launches`
  then answers with the error text.
- `/login` sends the text `undefined` as the hint when the parameter is missing, not
  an empty hint. `Server.Login` follows the code as written; `Server.LoginHint` states
  the intended hint on its own. See Findings.

## Model

| member | source | states |
|---|---|---|
| `Js.Prop` | src/jwt-payload.ts:40-41 | A property read fails exactly on `null`/`undefined`. It gives the field of an object that has it, and `undefined` for any other value. |
| `Js.OrEmptyObject` | src/jwt-payload.ts:25-26 | `v or {}` is always truthy and keeps every truthy value. |
| `Strings.Split` | src/jwt-payload.ts:24 | `split('.')` gives at least one piece, no piece holds the separator, and joining the pieces restores the text. |
| `Strings.SplitJoin` | src/jwt-payload.ts:24 | Splitting the join of separator-free pieces gives the pieces back. |
| `JwtPayload.AudienceClientId` | src/jwt-payload.ts:31-35 | The client id is the first element of an array `aud`, and `aud` itself otherwise. |
| `JwtPayload.Claim` | src/jwt-payload.ts:37-43 | A claim is the body's field under that exact name, or `undefined` when the body lacks it. |
| `JwtPayload.FromSegments` | src/jwt-payload.ts:30-44 | Construction fails exactly when the launch-presentation or tool-platform claim is `null`/absent. A constructed payload is unverified and keeps the header. |
| `JwtPayload.FromToken` | src/jwt-payload.ts:23-28 | Construction succeeds only when the first two segments both parse. For such a token the payload is exactly what `parseBody` builds from the parsed header and body, each `{}` when falsy, and it starts unverified. |
| `JwtPayload.ClaimsRoundTrip` | src/jwt-payload.ts:30-44 | For any truthy header and any body object holding the eight claims, whatever else it holds, construction gives exactly the payload of those claims. `clientId` follows the `aud` rule, `customParams` is the serialised `custom` claim, and the payload is unverified. |
| `JwtPayload.TokenCarriesClaims` | src/jwt-payload.ts:23-44 | A token `h.b.s` whose header segment parses to a truthy value and whose body segment parses to a body carrying the claims constructs exactly the payload of those claims, for any signature. |
| `JwtPayload.Kid` | src/jwt-payload.ts:46-48 | `kid` is the header's `kid` member when the header is an object that has one, and `undefined` otherwise. |
| `JwtPayload.ClaimsIgnoreHeader` | src/jwt-payload.ts:46-48 | The header affects only `kid`. Payloads built from different headers differ only in the header. |
| `JwtPayload.SignatureNotRead` | src/jwt-payload.ts:24-26 | Tokens that agree on their first two segments construct the same payload. |
| `JwtPayload.AnySignature` | src/jwt-payload.ts:24-26 | `h.b.s1` and `h.b.s2` construct the same payload for any signatures. |
| `LtiAdvantage.GetRedirectUrl` | src/lti-advantage.ts:17-20 | The redirect URL ends with the platform URL, unencoded. |
| `LtiAdvantage.RedirectUrlQuery` | src/lti-advantage.ts:17-20 | Read back, the redirect URL is the auth-done URL with exactly one parameter, `learn_url` = the platform URL. |
| `LtiAdvantage.GetOauth2AuthorizationUrl` | src/lti-advantage.ts:45-52 | For any inputs the URL is the platform URL, the authorization-code path, `?`, then the four parameters written raw: `response_type=code`, `client_id` = app key, the encoded redirect URL and the encoded state. |
| `LtiAdvantage.AuthorizationUrlQuery` | src/lti-advantage.ts:45-52 | Read back, the part before `?` is the platform URL plus the authorization-code path. The query carries `response_type=code`, `client_id` = app key, `redirect_uri` = the encoded redirect URL and `state` = the encoded state, in that order. |
| `LtiAdvantage.AuthorizationRedirect` | src/lti-advantage.ts:45-52 | Read back, the authorization URL's `redirect_uri` is the encoded auth-done redirect URL. |
| `LtiAdvantage.AuthorizationState` | src/lti-advantage.ts:45-52 | Read back, the authorization URL's `state` is the encoded state. |
| `LtiAdvantage.OidcUrl` | src/lti-advantage.ts:84-99 | The OIDC URL exists exactly when the endpoint resolves. Its base is the resolved `/api/v1/gateway/oidcauth`. Its parameters are exactly `response_type=id_token`, `scope=openid`, then `state`, `redirect_uri`, `client_id` (from the configuration), `nonce`, `login_hint` and `lti_message_hint`, in that order. |
| `LtiAdvantage.OidcFieldLocality` | src/lti-advantage.ts:89-96 | Each option field changes only its own parameter. Two options give the same URL exactly when they are equal. |
| `LtiAdvantage.OidcHrefRoundTrip` | src/lti-advantage.ts:89-98 | The serialized URL reads back as the eight encoded parameters in order, provided the serializer never writes `&` or `=`. |
| `LtiAdvantage.GetTokenRequest` | src/lti-advantage.ts:22-43 | The token request exists exactly when the token path resolves against the platform URL, and that is its base. Its parameters are exactly `grant_type=authorization_code`, the given `code`, and `redirect_uri` = the auth-done redirect URL. It sends the Basic credentials of key and secret. |
| `LtiAdvantage.TokenRedirect` | src/lti-advantage.ts:30-33 | The token request's `redirect_uri` is the auth-done redirect URL with the platform URL appended. |
| `LtiAdvantage.RedirectUriAgreement` | src/lti-advantage.ts:32-49 | The token request sends the redirect URI that the authorization redirect carried, encoded. |
| `LtiAdvantage.FindByKid` | src/lti-advantage.ts:68 | `find` returns the first entry whose `kid` is strictly equal, every earlier entry having another `kid`. It finds nothing exactly when every entry has another `kid`. It throws only on a `null`/`undefined` entry reached before any match. |
| `LtiAdvantage.SignatureChecksNeedsKey` | src/lti-advantage.ts:66-71 | A checked signature implies a fetched key set whose first entry of matching `kid` verifies the token. |
| `LtiAdvantage.FirstKeySuffices` | src/lti-advantage.ts:66-71 | Conversely, a fetched key set whose first entry of matching `kid` verifies the token makes the signature check. |
| `LtiAdvantage.FoundFirst` | src/lti-advantage.ts:68 | `find` returns the entry at a position when it matches and every earlier entry has another `kid`. |
| `LtiAdvantage.JwksPath` | src/lti-advantage.ts:64 | The key-set path is `/api/v1/management/applications/`, then the client id, then `/jwks.json`. |
| `LtiAdvantage.JwksPathInjective` | src/lti-advantage.ts:64 | Different client ids give different key-set paths. |
| `LtiAdvantage.GetJwtPayload` | src/lti-advantage.ts:54-77 | The call rejects only on an unconstructible token or an unbuildable key-set URL. It gives `null` exactly on a client-id mismatch. Otherwise it gives the payload, verified exactly when the signature checks. |
| `LtiAdvantage.MismatchFetchesNothing` | src/lti-advantage.ts:59-62 | On a mismatch the result is `null` whatever the network does. |
| `LtiAdvantage.TokenPayload` | src/lti-advantage.ts:54-77 | A well-formed token whose body carries claims for the configured client resolves to the payload of those claims. It is verified exactly when the signature checks against the key for the header's `kid`. |
| `LtiAdvantage.GetLearnUrl` | src/lti-advantage.ts:79-82 | The platform URL exists exactly when the return URL parses. It is that URL's protocol, `//`, then its host. |
| `LtiAdvantage.LearnUrlIgnoresPathAndQuery` | src/lti-advantage.ts:79-82 | Return URLs with the same protocol and host give the same platform URL. |
| `Server.LoginHintAsWritten` | src/server.ts:37-38 | As written, the hint is the decoding of `String(param)`, so a missing parameter is decoded as `undefined`. |
| `Server.AbsentHintForwardsUndefined` | src/server.ts:37-38 | As written, a request without a hint forwards `undefined`, never the empty hint. |
| `Server.LoginHint` | src/server.ts:37-38 | The intended hint: empty when missing, and the decoding otherwise. |
| `Server.Login` | src/server.ts:30-49 | `/login` redirects exactly when the launch URL resolves, both hints decode under the as-written rule, and the OIDC endpoint resolves. Otherwise it fails with a 500. A redirect sets exactly the secure, HTTP-only `state` cookie. |
| `Server.LoginStateCorrelation` | src/server.ts:31-45 | The redirect is the OIDC URL of options whose `state` is the cookie value and whose nonce is the given one. Their redirect URI is the resolved `/launches`, and their hints are the as-written decodings. |
| `Server.LoginWithoutHint` | src/server.ts:36-45 | As written, a login without `login_hint` redirects to an OIDC URL whose `login_hint` is `undefined`. |
| `Server.Launches` | src/server.ts:51-72 | A null or unverified payload gives exactly the error text. A redirect needs a verified payload whose target ends in `uef`, and goes to the authorization URL with the locale as state. A render needs a verified payload with any other target. Conversely, a verified payload with a string target is rendered when the target does not end in `uef`. It is redirected to the authorization URL of its platform origin when the target does and the return URL parses. |
| `Server.LaunchRequiresVerifiedToken` | src/server.ts:53-57 | A redirect or render implies the configured audience and a signature checked against a fetched key for the token's `kid`. |
| `Server.UefLaunchRedirects` | src/server.ts:51-68 | A well-formed token for the configured client, with a checked signature and a target ending in `uef`, is redirected to the authorization URL of its return URL's origin, with its locale as `state`. |
| `Server.LtiLaunchRenders` | src/server.ts:51-71 | The same token with any other string target renders the LTI launch of its claims, marked verified. |
| `Server.AuthDone` | src/server.ts:74-91 | `/auth-done` renders exactly when the token request can be built and its response body is neither `null` nor `undefined`. The render carries the body's `access_token` and `user_id`, the returned `state` as locale, the panel-action URL and the assets URL. Any failure gives the error text. |
| `Server.LocaleRoundTrip` | src/server.ts:64-85 | The locale sent as `state` in the authorization redirect is rendered as the locale by `/auth-done`. |
| `Server.HandleUefPanelAction` | src/server.ts:93-98 | The page answers exactly when `data` decodes, and ends with the decoded data. |
| `Server.PanelActionEchoesContext` | src/server.ts:93-98 | When decoding undoes encoding for a context, the answer to that encoded context names the action and ends with the context itself. |
| `Content.BaseNavButton` | src/assets/integration_demo.js:265-306 | The base-navigation button links to `uefTest`, shows the icon and has the link name as its only text. |
| `Content.CourseDetailsCard` | src/assets/integration_demo.js:190-262 | The course-details card has one button wired to `course-details-test`, the icon, and texts title then link. |
| `Content.NotificationCard` | src/assets/integration_demo.js:308-339 | The notification is small and its only text is the fixed notice. |
| `Content.FrameIn` | src/assets/integration_demo.js:341-367 | An element of the given tag wraps one iframe: its only iframe address is the given one, and it holds no image, button or text. |
| `Content.ModalDialog` | src/assets/integration_demo.js:481-555 | The modal has the given width, one iframe with the given address, the header icon, and one `Close` button wired to `modal-popup-close`. |
| `UefDemo.Start` | src/assets/integration_demo.js:35-54 | At load the channel is closed and the ids are unset. The stored items are whatever storage holds, and `integration:hello` goes to the LMS origin. |
| `UefDemo.OnPostMessage` | src/assets/integration_demo.js:56-78 | Something is sent exactly for a hello from the LMS origin that has a port. It sends one authorization request with the token and opens the channel. Every other message changes nothing. |
| `UefDemo.Registrations` | src/assets/integration_demo.js:117-136 | Authorization sends subscribe, base-nav register and course-detail register, in order, and changes no state. |
| `UefDemo.ShowFrame` | src/assets/integration_demo.js:386-415 | The portal is remembered as the panel, and one render of the tool's iframe goes to it. |
| `UefDemo.RenderPanelContents` | src/assets/integration_demo.js:417-448 | Only a response for `panel-1` renders. Any other correlation id changes nothing. |
| `UefDemo.OpenPanel` | src/assets/integration_demo.js:369-384 | The data is stored as context and `SHOW_PANEL` as action. One `panel-1` request of the given size follows. |
| `UefDemo.RenderModal` | src/assets/integration_demo.js:481-555 | One `modal-1` modal of the given width is sent, showing the data's address. No state changes. |
| `UefDemo.OnCallback` | src/assets/integration_demo.js:93-106 | The close callback closes the stored modal, and the course-details callback opens a full panel. Other callbacks do nothing. |
| `UefDemo.ShowNotification` | src/assets/integration_demo.js:308-339 | One notification is appended, anchored by the analytics selector at the given id. No state changes. |
| `UefDemo.ModalSize` | src/assets/integration_demo.js:140-154 | `large` exactly for organizations, `medium` exactly for calendar and the assessment route, `small` exactly for messages, and no modal for every other route. |
| `UefDemo.PanelSize` | src/assets/integration_demo.js:156-162 | `full` exactly for books-and-tools, `small` exactly for submission grading, and no panel for every other route. |
| `UefDemo.ModalRoute` | src/assets/integration_demo.js:140-154 | A modal route changes no state, and a non-modal route does nothing. |
| `UefDemo.PanelRoute` | src/assets/integration_demo.js:156-162 | A panel route leaves channel and ids alone, and a non-panel route does nothing. |
| `UefDemo.RecentActivityNotices` | src/assets/integration_demo.js:168-172 | The notices change no state and only add messages; messages are added exactly when the event is a `route` event to `base.recentActivity`, and otherwise nothing changes. |
| `UefProperties.RecentActivityNeedsRouteEvent` | src/assets/integration_demo.js:168-172 | An event naming the recent-activity route whose `eventType` is neither `route` nor `portal:new` sends nothing and changes no state. |
| `UefDemo.OnRoute` | src/assets/integration_demo.js:140-172 | Route handling never touches the channel, `panelId` or `modalId`, and only appends messages. |
| `UefDemo.OnPortalNew` | src/assets/integration_demo.js:174-186 | A new portal never touches the channel or `modalId`. It changes `panelId` only together with a final render into that portal. |
| `UefDemo.OnEvent` | src/assets/integration_demo.js:138-188 | An event never touches the channel or `modalId`. It changes `panelId` only together with a final render into it. |
| `UefDemo.KindOf` | src/assets/integration_demo.js:80-115 | Each type test of a channel message passes exactly when the type is that name; since the names differ, at most one passes. |
| `UefDemo.Replies` | src/assets/integration_demo.js:80-110 | The reply tests keep the channel. They change `modalId` only on a modal response, to its id, and change `panelId` only together with a final render into it. |
| `UefDemo.OnMessageFromUltra` | src/assets/integration_demo.js:80-115 | A channel message keeps the channel. It changes `modalId` only on a modal response, to its id, and changes `panelId` only together with a final render into it. |
| `UefDemo.Stored` | src/assets/integration_demo.js:558 | A storage event updates the stored item it names, or clears both items, and nothing else. |
| `UefDemo.OnStorage` | src/assets/integration_demo.js:560-575 | It sends exactly one panel close with the current `panelId`, exactly when key `event` parses to `demo:closePanel` and the channel is open. Otherwise it sends nothing. |
| `UefDemo.Step` | src/assets/integration_demo.js:47-66 | A channel message on a closed channel does nothing. A window message sends nothing or just the authorization request. A storage event updates the stored items. |
| `UefDemo.Run` | src/assets/integration_demo.js:47-66 | No events leave the state alone and send nothing. One event is one step. |
| `UefProperties.FrameSrcCarriesContext` | src/assets/integration_demo.js:417-419 | The panel iframe address is the launch URL, `?`, and the raw query `data` (encoded context), `uuid`, `action` (stored action), `learn_url` (LMS host), `locale`; in particular it starts with the launch URL and the encoded context. |
| `UefProperties.FrameSrcQuery` | src/assets/integration_demo.js:386-387 | Read back, the panel and base-navigation iframe address is the launch URL with exactly the five parameters `data`, `uuid`, `action`, `learn_url`, `locale`, in that order and with those values, when the launch URL has no `?` and no value holds `&`. |
| `UefProperties.ModalSrcCarriesData` | src/assets/integration_demo.js:526 | The modal iframe address is the launch URL, `?`, and the raw query `action=SHOW_MODAL`, `uuid`, `learn_url`, `locale`, `data` (encoded data); in particular it ends with `&data=` and the encoded data. |
| `UefProperties.ModalSrcQuery` | src/assets/integration_demo.js:526 | Read back, the modal iframe address is the launch URL with exactly the parameters `action` = `SHOW_MODAL`, `uuid`, `learn_url`, `locale` and `data`, in order, when the launch URL has no `?` and no value holds `&`. |
| `UefProperties.BannerSrcCarriesContext` | src/assets/integration_demo.js:342 | The banner iframe address is the launch URL, `?`, and the raw query `action=SHOW_BANNER`, `uuid`, `learn_url`, `locale`, `data` (encoded context); in particular it ends with `&data=` and the encoded context. |
| `UefProperties.BannerSrcQuery` | src/assets/integration_demo.js:342 | Read back, the banner iframe address is the launch URL with exactly the parameters `action` = `SHOW_BANNER`, `uuid`, `learn_url`, `locale` and `data`, in order, when the launch URL has no `?` and no value holds `&`. |
| `UefProperties.UntrustedMessageIgnored` | src/assets/integration_demo.js:57-61 | A window message from another origin, or lacking data or `type`, changes nothing and sends nothing. |
| `UefProperties.HandshakeAuthorizes` | src/assets/integration_demo.js:52-75 | After load, the hello with a port opens the channel and sends exactly the authorization request with the token. |
| `UefProperties.ClosedStep` | src/assets/integration_demo.js:56-78 | From a closed channel only the handshake sends or opens anything. |
| `UefProperties.NothingBeforeHandshake` | src/assets/integration_demo.js:63-75 | Any run without a handshake sends nothing and leaves the channel closed. |
| `UefProperties.AuthorizationComesFirst` | src/assets/integration_demo.js:63-75 | The first channel message of any run is the authorization request. |
| `UefProperties.AuthorizedRegisters` | src/assets/integration_demo.js:81-136 | An authorization reply sends exactly the three registrations in order, with the four subscriptions and the `uefTest` button. |
| `UefProperties.PanelResponseRendersTwice` | src/assets/integration_demo.js:85-110 | The `panel-1` response sets `panelId` and renders the same contents twice. Any other id does nothing. |
| `UefProperties.ModalCloseUsesReportedId` | src/assets/integration_demo.js:89-101 | A modal response then the close callback sends exactly one close carrying the reported id. |
| `UefProperties.CourseDetailsOpensPanel` | src/assets/integration_demo.js:102-104 | The course-details callback stores the context (or `null`) and `SHOW_PANEL`, and requests one full panel. |
| `UefProperties.EventStep` | src/assets/integration_demo.js:112-114 | An event runs the route handlers and then the portal handlers. |
| `UefProperties.RouteStep` | src/assets/integration_demo.js:138-188 | An event that is not a new portal is handled by the route tests alone. |
| `UefProperties.PortalStep` | src/assets/integration_demo.js:138-188 | An event on a route none of the route tests picks is handled by the portal tests alone. |
| `UefProperties.QuietRouteUnchanged` | src/assets/integration_demo.js:140-166 | A route none of the route tests picks changes neither the state nor the messages sent. |
| `UefProperties.UntabledRoutes` | src/assets/integration_demo.js:140-166 | The outline and recent-activity routes open neither a modal nor a panel, and are different routes. |
| `UefProperties.RouteTablesDisjoint` | src/assets/integration_demo.js:140-170 | No route name is in two route tests. |
| `UefProperties.RouteOpensModal` | src/assets/integration_demo.js:140-154 | A modal route sends one `modal-1` modal of the table's width. Its iframe address ends with the encoded route data, and no state changes. |
| `UefProperties.RouteOpensPanel` | src/assets/integration_demo.js:156-162 | A panel route stores the route data and `SHOW_PANEL`, and requests one panel of the table's size. |
| `UefProperties.OutlineStoresContext` | src/assets/integration_demo.js:164-166 | The outline route only stores the route data as context. |
| `UefProperties.RecentActivityNotifies` | src/assets/integration_demo.js:168-172 | The recent-activity route sends the three notifications at the fixed anchors, in order. |
| `UefProperties.AnchorsNotified` | src/assets/integration_demo.js:168-172 | The recent-activity test appends one notification per analytics anchor, in order, and changes no state. |
| `UefProperties.QuietRouteIgnored` | src/assets/integration_demo.js:138-188 | Any other route event outside a new portal does nothing. |
| `UefProperties.BannerShowsContext` | src/assets/integration_demo.js:174-176 | A new banner portal gets one render whose iframe shows the stored context. |
| `UefProperties.BaseNavLoads` | src/assets/integration_demo.js:178-182 | The `uefTest` base-nav portal stores `LOAD_BASENAV` and the route parameters, remembers the portal and renders the tool into it. |
| `UefProperties.OtherBaseNavIgnored` | src/assets/integration_demo.js:178 | A base-nav portal for another route, or without selector data, does nothing. |
| `UefProperties.CourseDetailsCardRendered` | src/assets/integration_demo.js:184-186 | A new course-details portal gets the card wired to the course-details callback. |
| `UefProperties.OutlineContextReachesBanner` | src/assets/integration_demo.js:164-176 | The banner shown after the outline route ends with that route's encoded data. |
| `UefProperties.CloseRequestTargetsRenderedPanel` | src/assets/integration_demo.js:560-575 | A close request after the panel render closes that same portal. |
| `UefProperties.StepFrame` | src/assets/integration_demo.js:56-115 | The channel opens only by handshake and never closes. `modalId` changes only on a modal response, and `panelId` changes only together with a render into it. |

## Left out

- The Express server setup, middleware, static assets, the `/` route and `listen` (src/server.ts:17-28, 100-111) are runtime glue with no decisions.
- Console logging and the `LoggedMessageChannel` wrapper (src/assets/integration_demo.js:577-600) only log. The channel is a flag, and posting is appending to the output list.
- `window.parent` is always present in a browser, so the iframe check at load (src/assets/integration_demo.js:31-33) is not modelled.
- `renderEmbeddedPanelContents` is never called.
- Styles, class names and other presentational props inside the content trees are not modelled.
- Library calls are arbitrary functions: JSON parse and stringify, base64, URI encoding, the URL parser, the query serializer, `jwt.verify` with `jwk2pem`, and axios. No injectivity of the encoders is assumed. The disabled-TLS agent is a transport detail.
- `Config` is not part of this model. Its fields are a record parameter, and a host that does not resolve is whatever `resolveUrl` says.
- Writing to `localStorage` is assumed to succeed; a full quota is not modelled. Lone surrogates making `encodeURIComponent` throw are not modelled either.
- Numbers are carried as their JavaScript text, and arrays as query values (`?a=1&a=2` in Express) are not modelled.
- A channel message before the handshake is ignored, because no port exists for it to arrive on.
- The values the launch template injects are taken as given. The template itself is not part of this model.

## Findings

| source | as written | input that shows it | evidently intended | confidence | as-written member | corrected member |
|---|---|---|---|---|---|---|
| src/server.ts:37-38 | `decodeURIComponent(req.query.login_hint)` with the empty-text fallback decodes `String(undefined)` when the parameter is missing. The result `"undefined"` is truthy, so the fallback never applies. | `GET /login` without `login_hint` (or without `lti_message_hint`) forwards the hint `undefined` to the platform. | A missing hint is forwarded as the empty hint. | not executed | `Server.LoginWithoutHint` | `Server.LoginHint` |
