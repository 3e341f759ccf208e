/** The route handlers of src/server.ts as request-to-response functions: the OIDC
    login initiation, the launch, the return from the authorization-code step and
    the panel-action stub. Random values (`uuid()`) are parameters. */
module Server {
  import opened Optional
  import opened Js
  import opened Query
  import opened LtiAdvantage
  import JwtPayload
  import Strings

  /** A cookie set on the response. */
  datatype Cookie = Cookie(name: string, value: string, secure: bool, httpOnly: bool)

  /** What a handler answers. */
  datatype Response =
      /** `res.send(body)`. */
    | Text(body: string)
      /** `res.redirect(location)`, after setting `cookies`. */
    | Redirect(location: string, cookies: seq<Cookie>)
      /** `res.render('ltiLaunch', { jwtPayload })`. */
    | RenderLtiLaunch(payload: JwtPayload.Payload)
      /** `res.render('uefLaunch', { ... })`. */
    | RenderUefLaunch(token: Json, learnUrl: Option<string>, userUuid: Json,
                      launchUrl: string, locale: Option<string>, assetsUrl: string)
      /** A synchronous handler threw: Express answers with its default 500 page. */
    | InternalError
      /** An `async` handler's promise rejected: Express 4 sends nothing. */
    | NoResponse

  const IdTokenError := "An error occurred processing the id_token."
  const LaunchesPath := "/launches"
  const PanelActionPath := "/handleUefPanelAction"
  const PanelActionIntro := "This would handle this action of "
  const PanelContextIntro := "... data context is "

  /** The hint `/login` forwards for an optional query parameter, as written:
      `decodeURIComponent(param) || ''`. `None` when decoding throws. A missing
      parameter is decoded as the text `undefined`, which is truthy, so the `|| ''`
      fallback applies only to a present but empty parameter. */
  function LoginHintAsWritten(lib: Lib, param: Option<string>): (r: Option<string>)
    ensures r == lib.decodeUriComponent(OrUndefined(param))
  {
    match lib.decodeUriComponent(OrUndefined(param))
    case None => None
    case Some(v) => Some(if v == "" then "" else v)
  }

  /** As written, a request without the parameter forwards the hint `undefined`
      (decoding text without `%` leaves it unchanged). */
  lemma AbsentHintForwardsUndefined(lib: Lib)
    requires lib.decodeUriComponent("undefined") == Some("undefined")
    ensures LoginHintAsWritten(lib, None) == Some("undefined")
    ensures LoginHintAsWritten(lib, None) != Some("")
  {
  }

  /** The hint `/login` evidently means to forward with `|| ''`: the empty hint
      when the parameter is missing, its decoding otherwise. `Login` follows the
      code as written and does not use it. */
  function LoginHint(lib: Lib, param: Option<string>): (r: Option<string>)
    ensures param.None? ==> r == Some("")
    ensures param.Some? ==> r == LoginHintAsWritten(lib, param)
  {
    match param
    case None => Some("")
    case Some(p) => lib.decodeUriComponent(p)
  }

  /** `GET /login`: a fresh `state` (and `nonce`) from the caller, a redirect to the
      platform's OIDC endpoint, and the same `state` in a secure, HTTP-only cookie.
      A throw (an unresolvable host, an undecodable hint) is a 500. */
  function Login(cfg: Config, lib: Lib, state: string, nonce: string,
                 loginHint: Option<string>, ltiMessageHint: Option<string>): (r: Response)
    ensures r.Redirect? || r == InternalError
    ensures r.Redirect? <==>
      && lib.resolveUrl(LaunchesPath, cfg.webAppHost).Some?
      && LoginHintAsWritten(lib, loginHint).Some?
      && LoginHintAsWritten(lib, ltiMessageHint).Some?
      && lib.resolveUrl(OidcAuthPath, cfg.devPortalHost).Some?
    ensures r.Redirect? ==> r.cookies == [Cookie("state", state, true, true)]
  {
    match lib.resolveUrl(LaunchesPath, cfg.webAppHost)
    case None => InternalError
    case Some(redirectUri) =>
      match (LoginHintAsWritten(lib, loginHint), LoginHintAsWritten(lib, ltiMessageHint))
      case (Some(hint), Some(messageHint)) =>
        (match OidcUrl(cfg, lib, OidcOptions(hint, messageHint, state, nonce, redirectUri))
         case None => InternalError
         case Some(u) => Redirect(Href(u, lib.formEncode), [Cookie("state", state, true, true)]))
      case _ => InternalError
  }

  /** The `state` of a login correlates the redirect and the cookie: the OIDC URL
      carries as its `state` parameter exactly the value stored in the `state`
      cookie, and the URL a platform reads back holds it once, form-encoded, when the
      serializer never writes `&` or `=` for the eight names and values. */
  lemma LoginStateCorrelation(cfg: Config, lib: Lib, state: string, nonce: string,
                              loginHint: Option<string>, ltiMessageHint: Option<string>)
    requires Login(cfg, lib, state, nonce, loginHint, ltiMessageHint).Redirect?
    ensures var r := Login(cfg, lib, state, nonce, loginHint, ltiMessageHint);
      exists o: OidcOptions ::
        && o.state == r.cookies[0].value
        && o.nonce == nonce
        && o.redirectUri == lib.resolveUrl(LaunchesPath, cfg.webAppHost).value
        && o.loginHint == LoginHintAsWritten(lib, loginHint).value
        && o.ltiMessageHint == LoginHintAsWritten(lib, ltiMessageHint).value
        && OidcUrl(cfg, lib, o).Some?
        && r.location == Href(OidcUrl(cfg, lib, o).value, lib.formEncode)
        && Lookup(OidcUrl(cfg, lib, o).value.params, "state") == Some(r.cookies[0].value)
  {
    var redirectUri := lib.resolveUrl(LaunchesPath, cfg.webAppHost).value;
    var o := OidcOptions(LoginHintAsWritten(lib, loginHint).value, LoginHintAsWritten(lib, ltiMessageHint).value,
                         state, nonce, redirectUri);
    LookupAt(OidcUrl(cfg, lib, o).value.params, 2, "state");
  }

  /** As written, a login request without `login_hint` sends the platform the hint
      `undefined` rather than the empty hint. */
  lemma LoginWithoutHint(cfg: Config, lib: Lib, state: string, nonce: string, ltiMessageHint: Option<string>)
    requires lib.decodeUriComponent("undefined") == Some("undefined")
    requires Login(cfg, lib, state, nonce, None, ltiMessageHint).Redirect?
    ensures var r := Login(cfg, lib, state, nonce, None, ltiMessageHint);
      exists o: OidcOptions ::
        && o.loginHint == "undefined"
        && OidcUrl(cfg, lib, o).Some?
        && OidcUrl(cfg, lib, o).value.params[6] == ("login_hint", "undefined")
        && r.location == Href(OidcUrl(cfg, lib, o).value, lib.formEncode)
  {
    AbsentHintForwardsUndefined(lib);
    LoginStateCorrelation(cfg, lib, state, nonce, None, ltiMessageHint);
  }

  /** The token resolves to a verified payload with a string target link URI. */
  predicate VerifiedTarget(cfg: Config, lib: Lib, net: Net, idToken: string) {
    var promise := GetJwtPayload(cfg, lib, net, idToken);
    && promise.Resolves? && promise.payload.Some?
    && promise.payload.value.verified
    && promise.payload.value.targetLinkUri.JString?
  }

  /** `POST /launches`. The payload is constructed and verified first; a `null` or
      unverified payload gets the fixed error text; a verified payload whose target
      link URI ends in `uef` is redirected to the authorization-code step with the
      launch locale as `state`; any other verified payload is rendered. A throw in
      the `async` handler (no token, a malformed token, a non-string target, an
      unparsable return URL) leaves the request unanswered. */
  function Launches(cfg: Config, lib: Lib, net: Net, idToken: Option<string>): (r: Response)
    ensures r == Text(IdTokenError) <==>
      idToken.Some? &&
      var promise := GetJwtPayload(cfg, lib, net, idToken.value);
      promise.Resolves? && (promise.payload.None? || !promise.payload.value.verified)
    ensures r.Redirect? ==>
      && idToken.Some?
      && GetJwtPayload(cfg, lib, net, idToken.value).Resolves?
      && GetJwtPayload(cfg, lib, net, idToken.value).payload.Some?
      && var p := GetJwtPayload(cfg, lib, net, idToken.value).payload.value;
      && p.verified
      && p.targetLinkUri.JString? && Strings.EndsWith(p.targetLinkUri.s, "uef")
      && GetLearnUrl(lib, p).Some?
      && r == Redirect(GetOauth2AuthorizationUrl(cfg, lib, GetLearnUrl(lib, p).value, JsString(p.locale)), [])
    ensures r.RenderLtiLaunch? ==>
      && idToken.Some?
      && GetJwtPayload(cfg, lib, net, idToken.value) == Resolves(Some(r.payload))
      && r.payload == GetJwtPayload(cfg, lib, net, idToken.value).payload.value
      && r.payload.verified
      && r.payload.targetLinkUri.JString? && !Strings.EndsWith(r.payload.targetLinkUri.s, "uef")
    ensures r.Text? || r.Redirect? || r.RenderLtiLaunch? || r == NoResponse
    ensures idToken.Some? && VerifiedTarget(cfg, lib, net, idToken.value) ==>
      var p := GetJwtPayload(cfg, lib, net, idToken.value).payload.value;
      && (!Strings.EndsWith(p.targetLinkUri.s, "uef") ==> r == RenderLtiLaunch(p))
      && (Strings.EndsWith(p.targetLinkUri.s, "uef") && GetLearnUrl(lib, p).Some? ==>
            r == Redirect(GetOauth2AuthorizationUrl(cfg, lib, GetLearnUrl(lib, p).value, JsString(p.locale)), []))
  {
    match idToken
    case None => NoResponse
    case Some(token) =>
      match GetJwtPayload(cfg, lib, net, token)
      case Rejects => NoResponse
      case Resolves(None) => Text(IdTokenError)
      case Resolves(Some(p)) =>
        if !p.verified then Text(IdTokenError)
        else
          match p.targetLinkUri
          case JString(target) =>
            if Strings.EndsWith(target, "uef") then
              match GetLearnUrl(lib, p)
              case None => NoResponse
              case Some(learnUrl) =>
                Redirect(GetOauth2AuthorizationUrl(cfg, lib, learnUrl, JsString(p.locale)), [])
            else RenderLtiLaunch(p)
          case _ => NoResponse
  }

  /** A launch goes on (redirect or render) only for a token whose audience is the
      configured client and whose signature checked against a fetched key with the
      token's `kid`. */
  lemma LaunchRequiresVerifiedToken(cfg: Config, lib: Lib, net: Net, idToken: Option<string>)
    requires Launches(cfg, lib, net, idToken).Redirect? || Launches(cfg, lib, net, idToken).RenderLtiLaunch?
    ensures idToken.Some?
    ensures var p := JwtPayload.FromToken(lib, idToken.value);
      && p.Some?
      && p.value.clientId == JString(cfg.clientId)
      && JwksUrl(cfg, lib).Some?
      && SignatureChecks(net, JwksUrl(cfg, lib).value, idToken.value, JwtPayload.Kid(p.value))
  {
  }

  /** A well-formed token for the configured client whose signature checks and
      whose target link URI ends in `uef` is redirected to the authorization-code
      step of the platform origin of its return URL, with its locale as `state`. */
  lemma UefLaunchRedirects(cfg: Config, lib: Lib, net: Net, header: string, body: string, sig: string,
                           h: Json, b: Json, c: JwtPayload.Claims)
    requires '.' !in header && '.' !in body
    requires lib.parseJson(lib.base64Decode(header)) == Some(h) && Truthy(h)
    requires lib.parseJson(lib.base64Decode(body)) == Some(b) && JwtPayload.Carries(b, c)
    requires JwtPayload.AudienceClientId(c.aud) == JString(cfg.clientId)
    requires JwksUrl(cfg, lib).Some?
    requires SignatureChecks(net, JwksUrl(cfg, lib).value, header + "." + body + "." + sig,
                             Prop(h, "kid").GetOr(JUndefined))
    requires c.targetLinkUri.JString? && Strings.EndsWith(c.targetLinkUri.s, "uef")
    requires lib.parseUrl(JsString(c.returnUrl)).Some?
    ensures var u := lib.parseUrl(JsString(c.returnUrl)).value;
      Launches(cfg, lib, net, Some(header + "." + body + "." + sig))
        == Redirect(GetOauth2AuthorizationUrl(cfg, lib, u.protocol + "//" + u.host, JsString(c.locale)), [])
  {
    TokenPayload(cfg, lib, net, header, body, sig, h, b, c);
  }

  /** The same token with any other string target is rendered as an LTI launch of
      its claims, marked verified. */
  lemma LtiLaunchRenders(cfg: Config, lib: Lib, net: Net, header: string, body: string, sig: string,
                         h: Json, b: Json, c: JwtPayload.Claims)
    requires '.' !in header && '.' !in body
    requires lib.parseJson(lib.base64Decode(header)) == Some(h) && Truthy(h)
    requires lib.parseJson(lib.base64Decode(body)) == Some(b) && JwtPayload.Carries(b, c)
    requires JwtPayload.AudienceClientId(c.aud) == JString(cfg.clientId)
    requires JwksUrl(cfg, lib).Some?
    requires SignatureChecks(net, JwksUrl(cfg, lib).value, header + "." + body + "." + sig,
                             Prop(h, "kid").GetOr(JUndefined))
    requires c.targetLinkUri.JString? && !Strings.EndsWith(c.targetLinkUri.s, "uef")
    ensures Launches(cfg, lib, net, Some(header + "." + body + "." + sig))
      == RenderLtiLaunch(JwtPayload.ClaimsPayload(lib.stringify, h, c).(verified := true))
  {
    TokenPayload(cfg, lib, net, header, body, sig, h, b, c);
  }

  /** `GET /auth-done`: exchange the code for a token and render the UEF launch page
      with the panel-action URL and, as `locale`, the `state` the platform sent back.
      Any failure of the exchange -- an unusable platform URL, a rejected request,
      an empty response -- is caught and answered with the fixed error text. */
  function AuthDone(cfg: Config, lib: Lib, net: Net,
                    code: Option<string>, learnUrl: Option<string>, state: Option<string>): (r: Response)
    ensures r.Text? || r.RenderUefLaunch?
    ensures r.Text? ==> r.body == IdTokenError
    ensures r.RenderUefLaunch? ==>
      && r.locale == state
      && r.learnUrl == learnUrl
      && r.launchUrl == cfg.webAppHost + PanelActionPath
      && r.assetsUrl == cfg.webAppHost + "/assets"
    ensures r.RenderUefLaunch? <==>
      && GetTokenRequest(cfg, lib, OrUndefined(learnUrl), OrUndefined(code)).Some?
      && net.postToken(GetTokenRequest(cfg, lib, OrUndefined(learnUrl), OrUndefined(code)).value).Some?
      && Prop(net.postToken(GetTokenRequest(cfg, lib, OrUndefined(learnUrl), OrUndefined(code)).value).value,
              "access_token").Some?
    ensures r.RenderUefLaunch? ==>
      var data := net.postToken(GetTokenRequest(cfg, lib, OrUndefined(learnUrl), OrUndefined(code)).value).value;
      && r.token == Prop(data, "access_token").value
      && r.userUuid == Prop(data, "user_id").GetOr(JUndefined)
  {
    match GetTokenRequest(cfg, lib, OrUndefined(learnUrl), OrUndefined(code))
    case None => Text(IdTokenError)
    case Some(request) =>
      match net.postToken(request)
      case None => Text(IdTokenError)
      case Some(data) =>
        match (Prop(data, "access_token"), Prop(data, "user_id"))
        case (Some(token), Some(userUuid)) =>
          RenderUefLaunch(token, learnUrl, userUuid, cfg.webAppHost + PanelActionPath, state,
                          cfg.webAppHost + "/assets")
        case _ => Text(IdTokenError)
  }

  /** The launch locale survives the authorization-code detour: the redirect from
      `/launches` carries the locale, encoded, as its `state` parameter, and when the
      platform hands that parameter back decoded, `/auth-done` renders it as the
      page locale. The hypotheses are those of reading the redirect back (platform
      URL without `?`, no `&` in the key or the encoded values) and that decoding
      undoes encoding for this locale. */
  lemma LocaleRoundTrip(cfg: Config, lib: Lib, net: Net, idToken: string,
                        code: Option<string>, learnUrl: Option<string>)
    requires Launches(cfg, lib, net, Some(idToken)).Redirect?
    requires var p := GetJwtPayload(cfg, lib, net, idToken).payload.value;
      var l := GetLearnUrl(lib, p).value;
      && '?' !in l && '&' !in cfg.appKey
      && '&' !in lib.encodeUriComponent(GetRedirectUrl(l, AuthDoneUrl(cfg)))
      && '&' !in lib.encodeUriComponent(JsString(p.locale))
      && lib.decodeUriComponent(lib.encodeUriComponent(JsString(p.locale))) == Some(JsString(p.locale))
    ensures var p := GetJwtPayload(cfg, lib, net, idToken).payload.value;
      var sent := Lookup(QueryOf(Launches(cfg, lib, net, Some(idToken)).location), "state");
      && sent == Some(lib.encodeUriComponent(JsString(p.locale)))
      && var back := AuthDone(cfg, lib, net, code, learnUrl, lib.decodeUriComponent(sent.value));
         back.RenderUefLaunch? ==> back.locale == Some(JsString(p.locale))
  {
    var p := GetJwtPayload(cfg, lib, net, idToken).payload.value;
    var l := GetLearnUrl(lib, p).value;
    AuthorizationState(cfg, lib, l, JsString(p.locale));
  }

  /** `GET /handleUefPanelAction`: echoes the action and the decoded data context;
      a `data` that does not decode makes the handler throw (a 500). */
  function HandleUefPanelAction(lib: Lib, action: Option<string>, data: Option<string>): (r: Response)
    ensures r.Text? <==> lib.decodeUriComponent(OrUndefined(data)).Some?
    ensures r.Text? ==> Strings.EndsWith(r.body, lib.decodeUriComponent(OrUndefined(data)).value)
    ensures r.Text? || r == InternalError
  {
    match lib.decodeUriComponent(OrUndefined(data))
    case None => InternalError
    case Some(context) =>
      var prefix := PanelActionIntro + OrUndefined(action) + PanelContextIntro;
      Strings.EndsWithAppend(prefix, context);
      Text(prefix + context)
  }

  /** The panel action echoes a data context the page encoded: when decoding undoes
      encoding for `context`, the answer names the action and ends with the context
      itself. */
  lemma PanelActionEchoesContext(lib: Lib, action: Option<string>, context: string)
    requires lib.decodeUriComponent(lib.encodeUriComponent(context)) == Some(context)
    ensures HandleUefPanelAction(lib, action, Some(lib.encodeUriComponent(context)))
      == Text(PanelActionIntro + OrUndefined(action) + PanelContextIntro + context)
  {
  }
}
