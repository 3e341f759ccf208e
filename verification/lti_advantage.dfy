/** The LTI Advantage helpers of src/lti-advantage.ts: the OIDC login redirect, the
    three-legged OAuth2 authorization-code redirect and token request, the id_token
    verification decision and the platform URL taken from a payload. Network calls
    are the fields of `Net`; the configuration is a `Config` value. */
module LtiAdvantage {
  import opened Optional
  import opened Js
  import opened Query
  import JwtPayload

  /** The fields of the configuration module the helpers read. */
  datatype Config = Config(
    appKey: string,
    secret: string,
    clientId: string,
    devPortalHost: string,
    webAppHost: string)

  /** `IODICOptions`. */
  datatype OidcOptions = OidcOptions(
    loginHint: string,
    ltiMessageHint: string,
    state: string,
    nonce: string,
    redirectUri: string)

  /** The token-endpoint request of `getUserAccessToken`: the URL with its query and
      the Basic `Authorization` header value. */
  datatype TokenRequest = TokenRequest(target: SearchUrl, authorization: string)

  /** The network, as uninterpreted calls. */
  datatype Net = Net(
    /** `axios.get(url)`: the response body, `None` when the request rejects. */
    getJson: string -> Option<Json>,
    /** `jwt.verify(idToken, jwk2pem(key))` completes without throwing. */
    verifySignature: (string, Json) -> bool,
    /** `axios.post` of a token request: the response body, `None` when it rejects. */
    postToken: TokenRequest -> Option<Json>)

  const AuthDonePath := "/auth-done"
  /** The platform's OAuth 2.0 REST endpoints share this path. */
  const OAuthApi := "learn/api/public/v1/oauth2/"
  const AuthorizationCodePath := "/" + OAuthApi + "authorizationcode"
  const TokenPath := OAuthApi + "token"
  const OidcAuthPath := "/api/v1/gateway/oidcauth"

  /** Where the platform sends the user back after the authorization-code step. */
  function AuthDoneUrl(cfg: Config): string {
    cfg.webAppHost + AuthDonePath
  }

  /** `getRedirectUrl`: the auth-done URL with the platform URL appended, unencoded,
      as its `learn_url` parameter. */
  function GetRedirectUrl(learnUrl: string, authDoneUrl: string): (r: string)
    ensures Strings.EndsWith(r, learnUrl)
  {
    Strings.EndsWithAppend(authDoneUrl + "?learn_url=", learnUrl);
    authDoneUrl + "?learn_url=" + learnUrl
  }

  /** The redirect URL reads back as the auth-done URL with one `learn_url`
      parameter holding the platform URL, when the auth-done URL has no query and the
      platform URL holds no `&` (so no encoding is needed). */
  lemma RedirectUrlQuery(learnUrl: string, authDoneUrl: string)
    requires '?' !in authDoneUrl && '&' !in learnUrl
    ensures Strings.SplitFirst(GetRedirectUrl(learnUrl, authDoneUrl), '?').0 == authDoneUrl
    ensures QueryOf(GetRedirectUrl(learnUrl, authDoneUrl)) == [("learn_url", learnUrl)]
  {
    var ps := [("learn_url", learnUrl)];
    assert Raw(ps) == "learn_url=" + learnUrl;
    assert GetRedirectUrl(learnUrl, authDoneUrl) == authDoneUrl + ['?'] + Raw(ps);
    Strings.SplitFirstAt(authDoneUrl, Raw(ps), '?');
    RawUrlRoundTrip(authDoneUrl, ps);
  }

  /** The four parameters of the authorization-code redirect, in order; only the
      redirect URI and the state pass through `encodeURIComponent`. */
  function AuthorizationParams(cfg: Config, lib: Lib, learnUrl: string, state: string): seq<Param> {
    [("response_type", "code"),
     ("client_id", cfg.appKey),
     ("redirect_uri", lib.encodeUriComponent(GetRedirectUrl(learnUrl, AuthDoneUrl(cfg)))),
     ("state", lib.encodeUriComponent(state))]
  }

  /** `getOauth2AuthorizationUrl`: the platform's authorization-code endpoint with
      four parameters concatenated in order. Whatever the inputs hold, the text is
      the endpoint under the platform URL, a `?`, and the four parameters written
      raw. */
  function GetOauth2AuthorizationUrl(cfg: Config, lib: Lib, learnUrl: string, state: string): (r: string)
    ensures r == learnUrl + AuthorizationCodePath + "?" + Raw(AuthorizationParams(cfg, lib, learnUrl, state))
    ensures learnUrl + AuthorizationCodePath + "?" <= r
  {
    var redirectUrl := GetRedirectUrl(learnUrl, AuthDoneUrl(cfg));
    AuthorizationUrlShape(learnUrl, cfg.appKey, lib.encodeUriComponent(redirectUrl), lib.encodeUriComponent(state));
    AuthorizationRaw(cfg.appKey, lib.encodeUriComponent(redirectUrl), lib.encodeUriComponent(state));
    learnUrl + AuthorizationCodePath
      + "?response_type=code&client_id=" + cfg.appKey
      + "&redirect_uri=" + lib.encodeUriComponent(redirectUrl)
      + "&state=" + lib.encodeUriComponent(state)
  }

  /** The concatenated URL regrouped as endpoint, `?`, then the parameter pieces. */
  lemma AuthorizationUrlShape(l: string, key: string, e1: string, e2: string)
    ensures l + AuthorizationCodePath + "?response_type=code&client_id=" + key
        + "&redirect_uri=" + e1 + "&state=" + e2
      == l + AuthorizationCodePath + "?"
        + ("response_type=code&" + ("client_id=" + key + "&" + ("redirect_uri=" + e1 + "&" + ("state=" + e2))))
  {
    var a := "state=" + e2;
    var b := "redirect_uri=" + e1 + "&" + a;
    var c := "client_id=" + key + "&" + b;
    var x0 := l + AuthorizationCodePath;
    var q := "?response_type=code&client_id=";
    var x3 := x0 + q + key;
    var x5 := x3 + "&redirect_uri=" + e1;
    assert "&state=" == "&" + "state=";
    Strings.ConcatAssoc("&", "state=", e2);
    Strings.ConcatAssoc(x5, "&state=", e2);
    assert "&redirect_uri=" == "&" + "redirect_uri=";
    Strings.ConcatAssoc(x3, "&redirect_uri=", e1);
    Strings.ConcatAssoc(x3 + ("&redirect_uri=" + e1), "&", a);
    Strings.ConcatAssoc(x3, "&redirect_uri=" + e1, "&" + a);
    Strings.ConcatAssoc("&", "redirect_uri=", e1);
    Strings.ConcatAssoc("&" + "redirect_uri=" + e1, "&", a);
    Strings.ConcatAssoc("&", "redirect_uri=" + e1, "&" + a);
    Strings.ConcatAssoc("redirect_uri=", e1, "&" + a);
    Strings.ConcatAssoc("redirect_uri=" + e1, "&", a);
    assert q == "?" + "response_type=code&" + "client_id=";
    Strings.ConcatAssoc(x0 + q, key, "&" + b);
    Strings.ConcatAssoc(x0, q, key + ("&" + b));
    Strings.ConcatAssoc("?" + "response_type=code&", "client_id=", key + ("&" + b));
    Strings.ConcatAssoc("?", "response_type=code&", "client_id=" + (key + ("&" + b)));
    Strings.ConcatAssoc("client_id=", key, "&" + b);
    Strings.ConcatAssoc("client_id=" + key, "&", b);
    Strings.ConcatAssoc(x0, "?", "response_type=code&" + c);
  }

  /** The four authorization parameters written raw. */
  lemma AuthorizationRaw(key: string, e1: string, e2: string)
    ensures Raw([("response_type", "code"), ("client_id", key), ("redirect_uri", e1), ("state", e2)])
      == "response_type=code&" + ("client_id=" + key + "&" + ("redirect_uri=" + e1 + "&" + ("state=" + e2)))
  {
    var ps := [("response_type", "code"), ("client_id", key), ("redirect_uri", e1), ("state", e2)];
    RawOne(ps[3]);
    assert "state" + "=" == "state=";
    RawCons(ps[2], ps[3..]);
    assert "redirect_uri" + "=" == "redirect_uri=";
    assert [ps[2]] + ps[3..] == ps[2..];
    RawCons(ps[1], ps[2..]);
    assert "client_id" + "=" == "client_id=";
    assert [ps[1]] + ps[2..] == ps[1..];
    RawCons(ps[0], ps[1..]);
    assert "response_type" + "=" + "code" + "&" == "response_type=code&";
    assert [ps[0]] + ps[1..] == ps;
  }

  /** The four authorization parameters can be read back from their raw text. */
  lemma AuthorizationDelimited(key: string, e1: string, e2: string)
    requires '&' !in key && '&' !in e1 && '&' !in e2
    ensures Delimited([("response_type", "code"), ("client_id", key), ("redirect_uri", e1), ("state", e2)])
  {
    assert "response_type" == "respon" + "se_type";
    assert "redirect_uri" == "redir" + "ect_uri";
  }

  /** The authorization-code endpoint path holds no `?`. */
  lemma NoQueryInEndpoint(learnUrl: string)
    requires '?' !in learnUrl
    ensures '?' !in learnUrl + AuthorizationCodePath
  {
    assert '?' !in OAuthApi && '?' !in "authorizationcode";
  }

  /** A receiver of the authorization-code redirect finds the endpoint under the
      platform URL before the `?` and reads exactly four parameters, in order:
      `response_type=code`, the application key as `client_id`, the encoded
      auth-done redirect and the encoded state -- provided the platform URL has no
      `?` and neither the key nor the encoder's output holds an `&`. */
  lemma AuthorizationUrlQuery(cfg: Config, lib: Lib, learnUrl: string, state: string)
    requires '?' !in learnUrl
    requires '&' !in cfg.appKey
    requires '&' !in lib.encodeUriComponent(GetRedirectUrl(learnUrl, AuthDoneUrl(cfg)))
    requires '&' !in lib.encodeUriComponent(state)
    ensures Strings.SplitFirst(GetOauth2AuthorizationUrl(cfg, lib, learnUrl, state), '?').0
      == learnUrl + AuthorizationCodePath
    ensures QueryOf(GetOauth2AuthorizationUrl(cfg, lib, learnUrl, state)) == [
      ("response_type", "code"),
      ("client_id", cfg.appKey),
      ("redirect_uri", lib.encodeUriComponent(GetRedirectUrl(learnUrl, AuthDoneUrl(cfg)))),
      ("state", lib.encodeUriComponent(state))]
  {
    var e1 := lib.encodeUriComponent(GetRedirectUrl(learnUrl, AuthDoneUrl(cfg)));
    var e2 := lib.encodeUriComponent(state);
    var ps := AuthorizationParams(cfg, lib, learnUrl, state);
    AuthorizationDelimited(cfg.appKey, e1, e2);
    NoQueryInEndpoint(learnUrl);
    Strings.SplitFirstAt(learnUrl + AuthorizationCodePath, Raw(ps), '?');
    RawUrlRoundTrip(learnUrl + AuthorizationCodePath, ps);
  }

  /** `oidcUrl`: the platform's OIDC endpoint with eight parameters appended in a
      fixed order; `None` when the configured host does not resolve. */
  function OidcUrl(cfg: Config, lib: Lib, o: OidcOptions): (r: Option<SearchUrl>)
    ensures r.Some? <==> lib.resolveUrl(OidcAuthPath, cfg.devPortalHost).Some?
    ensures r.Some? ==> r.value.base == lib.resolveUrl(OidcAuthPath, cfg.devPortalHost).value
    ensures r.Some? ==> r.value.params == [
      ("response_type", "id_token"), ("scope", "openid"), ("state", o.state),
      ("redirect_uri", o.redirectUri), ("client_id", cfg.clientId), ("nonce", o.nonce),
      ("login_hint", o.loginHint), ("lti_message_hint", o.ltiMessageHint)]
  {
    match lib.resolveUrl(OidcAuthPath, cfg.devPortalHost)
    case None => None
    case Some(base) =>
      var ps := [
        ("response_type", "id_token"),
        ("scope", "openid"),
        ("state", o.state),
        ("redirect_uri", o.redirectUri),
        ("client_id", cfg.clientId),
        ("nonce", o.nonce),
        ("login_hint", o.loginHint),
        ("lti_message_hint", o.ltiMessageHint)];
      Some(SearchUrl(base, ps))
  }

  /** Each option field reaches only its own parameter: the fixed parameters and all
      names are the same for any options, and the parameter of a field changes
      exactly when that field does. So two options give the same URL only when they
      are equal. */
  lemma OidcFieldLocality(cfg: Config, lib: Lib, o1: OidcOptions, o2: OidcOptions)
    requires lib.resolveUrl(OidcAuthPath, cfg.devPortalHost).Some?
    ensures var p1, p2 := OidcUrl(cfg, lib, o1).value.params, OidcUrl(cfg, lib, o2).value.params;
      && |p1| == |p2| == 8
      && Names(p1) == Names(p2)
      && p1[0] == p2[0] && p1[1] == p2[1] && p1[4] == p2[4]
      && (p1[2] == p2[2] <==> o1.state == o2.state)
      && (p1[3] == p2[3] <==> o1.redirectUri == o2.redirectUri)
      && (p1[5] == p2[5] <==> o1.nonce == o2.nonce)
      && (p1[6] == p2[6] <==> o1.loginHint == o2.loginHint)
      && (p1[7] == p2[7] <==> o1.ltiMessageHint == o2.ltiMessageHint)
    ensures OidcUrl(cfg, lib, o1) == OidcUrl(cfg, lib, o2) <==> o1 == o2
  {
  }

  /** The OIDC redirect a platform reads back holds the eight parameters, each name
      and value passed once through the form serializer, in order, provided the
      endpoint has no query and the serializer never writes the delimiters `&` and
      `=` for these names and values. A hint holding `&` therefore cannot split into
      extra parameters. */
  lemma OidcHrefRoundTrip(cfg: Config, lib: Lib, o: OidcOptions)
    requires lib.resolveUrl(OidcAuthPath, cfg.devPortalHost).Some?
    requires '?' !in lib.resolveUrl(OidcAuthPath, cfg.devPortalHost).value
    requires var ps := OidcUrl(cfg, lib, o).value.params;
      forall i :: 0 <= i < |ps| ==>
        '&' !in lib.formEncode(ps[i].0) && '=' !in lib.formEncode(ps[i].0) && '&' !in lib.formEncode(ps[i].1)
    ensures QueryOf(Href(OidcUrl(cfg, lib, o).value, lib.formEncode)) ==
      Encoded(OidcUrl(cfg, lib, o).value.params, lib.formEncode)
  {
    HrefRoundTrip(OidcUrl(cfg, lib, o).value, lib.formEncode);
  }

  /** The request `getUserAccessToken` posts: the token endpoint under the platform
      URL with the grant type, the code and the same redirect URI the authorization
      step used; `None` when `new URL` throws on the platform URL. */
  function GetTokenRequest(cfg: Config, lib: Lib, learnUrl: string, code: string): (r: Option<TokenRequest>)
    ensures r.Some? <==> lib.resolveUrl(TokenPath, learnUrl).Some?
    ensures r.Some? ==> r.value.target.base == lib.resolveUrl(TokenPath, learnUrl).value
    ensures r.Some? ==> r.value.target.params == [
      ("grant_type", "authorization_code"), ("code", code),
      ("redirect_uri", GetRedirectUrl(learnUrl, AuthDoneUrl(cfg)))]
    ensures r.Some? ==> r.value.authorization == "Basic " + lib.base64Encode(cfg.appKey + ":" + cfg.secret)
  {
    match lib.resolveUrl(TokenPath, learnUrl)
    case None => None
    case Some(base) =>
      Some(TokenRequest(
        SearchUrl(base, [
          ("grant_type", "authorization_code"),
          ("code", code),
          ("redirect_uri", GetRedirectUrl(learnUrl, AuthDoneUrl(cfg)))]),
        "Basic " + lib.base64Encode(cfg.appKey + ":" + cfg.secret)))
  }

  /** The token request's `redirect_uri` is the auth-done redirect. */
  lemma TokenRedirect(cfg: Config, lib: Lib, learnUrl: string, code: string)
    requires lib.resolveUrl(TokenPath, learnUrl).Some?
    ensures Lookup(GetTokenRequest(cfg, lib, learnUrl, code).value.target.params, "redirect_uri")
      == Some(GetRedirectUrl(learnUrl, AuthDoneUrl(cfg)))
  {
    var ps := GetTokenRequest(cfg, lib, learnUrl, code).value.target.params;
    assert ps == [("grant_type", "authorization_code"), ("code", code),
                  ("redirect_uri", GetRedirectUrl(learnUrl, AuthDoneUrl(cfg)))];
    LookupAt(ps, 2, "redirect_uri");
  }

  /** The authorization redirect's `redirect_uri` is the encoded auth-done redirect. */
  lemma AuthorizationRedirect(cfg: Config, lib: Lib, learnUrl: string, state: string)
    requires '?' !in learnUrl && '&' !in cfg.appKey
    requires '&' !in lib.encodeUriComponent(GetRedirectUrl(learnUrl, AuthDoneUrl(cfg)))
    requires '&' !in lib.encodeUriComponent(state)
    ensures Lookup(QueryOf(GetOauth2AuthorizationUrl(cfg, lib, learnUrl, state)), "redirect_uri")
      == Some(lib.encodeUriComponent(GetRedirectUrl(learnUrl, AuthDoneUrl(cfg))))
  {
    LookupAt(AuthorizationParams(cfg, lib, learnUrl, state), 2, "redirect_uri");
    AuthorizationUrlQuery(cfg, lib, learnUrl, state);
  }

  /** The authorization redirect's `state` is the encoded state. */
  lemma AuthorizationState(cfg: Config, lib: Lib, learnUrl: string, state: string)
    requires '?' !in learnUrl && '&' !in cfg.appKey
    requires '&' !in lib.encodeUriComponent(GetRedirectUrl(learnUrl, AuthDoneUrl(cfg)))
    requires '&' !in lib.encodeUriComponent(state)
    ensures Lookup(QueryOf(GetOauth2AuthorizationUrl(cfg, lib, learnUrl, state)), "state")
      == Some(lib.encodeUriComponent(state))
  {
    LookupAt(AuthorizationParams(cfg, lib, learnUrl, state), 3, "state");
    AuthorizationUrlQuery(cfg, lib, learnUrl, state);
  }

  /** The redirect URI the token request sends is the one the authorization redirect
      carried (encoded there), as OAuth 2.0 requires of an authorization-code
      exchange (section 4.1.3 of RFC 6749). */
  lemma RedirectUriAgreement(cfg: Config, lib: Lib, learnUrl: string, state: string, code: string)
    requires lib.resolveUrl(TokenPath, learnUrl).Some?
    requires '?' !in learnUrl && '&' !in cfg.appKey
    requires '&' !in lib.encodeUriComponent(GetRedirectUrl(learnUrl, AuthDoneUrl(cfg)))
    requires '&' !in lib.encodeUriComponent(state)
    ensures var sent := Lookup(GetTokenRequest(cfg, lib, learnUrl, code).value.target.params, "redirect_uri");
      && sent.Some?
      && Lookup(QueryOf(GetOauth2AuthorizationUrl(cfg, lib, learnUrl, state)), "redirect_uri")
         == Some(lib.encodeUriComponent(sent.value))
  {
    TokenRedirect(cfg, lib, learnUrl, code);
    AuthorizationRedirect(cfg, lib, learnUrl, state);
  }

  /** The outcome of `Array.prototype.find(k => k.kid === kid)`. */
  datatype KeySearch = Found(key: Json) | NotFound | Threw

  /** `k.kid === kid` holds for the entry `k`. */
  predicate KidMatches(k: Json, kid: Json) {
    Prop(k, "kid").Some? && StrictEquals(Prop(k, "kid").value, kid)
  }

  /** `find` tests the entry `k` and moves past it: it has a `kid` other than `kid`. */
  predicate PassedOver(k: Json, kid: Json) {
    Prop(k, "kid").Some? && !StrictEquals(Prop(k, "kid").value, kid)
  }

  /** The entries before `i` are all passed over. */
  predicate PassedBefore(keys: seq<Json>, kid: Json, i: int)
    requires 0 <= i <= |keys|
  {
    forall j :: 0 <= j < i ==> PassedOver(keys[j], kid)
  }

  /** `find` reaches entry `i`, and it matches. */
  predicate FirstMatchAt(keys: seq<Json>, kid: Json, i: int) {
    0 <= i < |keys| && PassedBefore(keys, kid, i) && KidMatches(keys[i], kid)
  }

  /** `find` reaches entry `i`, and reading its `kid` throws. */
  predicate ThrowsAt(keys: seq<Json>, kid: Json, i: int) {
    0 <= i < |keys| && PassedBefore(keys, kid, i) && Prop(keys[i], "kid").None?
  }

  /** The key-set entry `find` returns. `find` visits the entries in order, returns
      the first whose `kid` matches, and throws a TypeError on a `null` or
      `undefined` entry it reaches first. */
  function FindByKid(keys: seq<Json>, kid: Json): (r: KeySearch)
    ensures r.Found? ==> exists i :: FirstMatchAt(keys, kid, i) && keys[i] == r.key
    ensures r.NotFound? <==> PassedBefore(keys, kid, |keys|)
    ensures r.Threw? ==> exists i :: ThrowsAt(keys, kid, i)
  {
    if |keys| == 0 then NotFound
    else match Prop(keys[0], "kid")
      case None => assert ThrowsAt(keys, kid, 0); Threw
      case Some(k) =>
        if StrictEquals(k, kid) then assert FirstMatchAt(keys, kid, 0); Found(keys[0])
        else
          var r := FindByKid(keys[1..], kid);
          PassOverFirst(keys, kid);
          r
  }

  /** Past a first entry that is passed over, `find` on the rest reaches each entry
      one position later. */
  lemma PassOverFirst(keys: seq<Json>, kid: Json)
    requires |keys| > 0 && PassedOver(keys[0], kid)
    ensures forall i :: FirstMatchAt(keys[1..], kid, i) ==> FirstMatchAt(keys, kid, i + 1)
    ensures forall i :: ThrowsAt(keys[1..], kid, i) ==> ThrowsAt(keys, kid, i + 1)
    ensures PassedBefore(keys[1..], kid, |keys| - 1) <==> PassedBefore(keys, kid, |keys|)
  {
    assert forall i :: 1 <= i < |keys| ==> keys[i] == keys[1..][i - 1];
  }

  /** The `try` block of `getJWTPayload`: fetch the key set, find the key for `kid`,
      verify the signature. Every failure -- a rejected fetch, a body without a
      `keys` array, a throwing `find`, a missing key, a bad signature -- is caught
      and leaves the payload unverified. */
  predicate SignatureChecks(net: Net, jwksUrl: string, idToken: string, kid: Json) {
    match net.getJson(jwksUrl)
    case None => false
    case Some(data) =>
      match Prop(data, "keys")
      case Some(JArray(keys)) =>
        (match FindByKid(keys, kid)
         case Found(key) => net.verifySignature(idToken, key)
         case _ => false)
      case _ => false
  }

  /** The signature check succeeds on a fetched key set whose first entry with a
      matching `kid`, reached past entries that all have another `kid`, verifies
      the token. */
  predicate FirstKeyVerifies(net: Net, jwksUrl: string, idToken: string, kid: Json, keys: seq<Json>, i: int) {
    && net.getJson(jwksUrl).Some?
    && Prop(net.getJson(jwksUrl).value, "keys") == Some(JArray(keys))
    && FirstMatchAt(keys, kid, i)
    && net.verifySignature(idToken, keys[i])
  }

  /** A verified signature always comes from the first fetched key whose `kid`
      matches. */
  lemma SignatureChecksNeedsKey(net: Net, jwksUrl: string, idToken: string, kid: Json)
    requires SignatureChecks(net, jwksUrl, idToken, kid)
    ensures exists keys, i :: FirstKeyVerifies(net, jwksUrl, idToken, kid, keys, i)
  {
    var data := net.getJson(jwksUrl).value;
    var keys := Prop(data, "keys").value.items;
    var key := FindByKid(keys, kid).key;
    var i :| FirstMatchAt(keys, kid, i) && keys[i] == key;
    assert FirstKeyVerifies(net, jwksUrl, idToken, kid, keys, i);
  }

  /** Conversely, the first matching key verifying the token is enough. */
  lemma {:induction false} FirstKeySuffices(net: Net, jwksUrl: string, idToken: string, kid: Json, keys: seq<Json>, i: int)
    requires FirstKeyVerifies(net, jwksUrl, idToken, kid, keys, i)
    ensures SignatureChecks(net, jwksUrl, idToken, kid)
  {
    FoundFirst(keys, kid, i);
  }

  /** `find` returns the first matching entry when every entry before it is passed
      over. */
  lemma {:induction false} FoundFirst(keys: seq<Json>, kid: Json, i: int)
    requires FirstMatchAt(keys, kid, i)
    ensures FindByKid(keys, kid) == Found(keys[i])
    decreases i
  {
    if i > 0 {
      assert PassedOver(keys[0], kid);
      assert forall j :: 0 <= j < i - 1 ==> keys[1..][j] == keys[j + 1];
      FoundFirst(keys[1..], kid, i - 1);
    }
  }

  /** How the promise returned by `getJWTPayload` settles. */
  datatype PayloadPromise = Rejects | Resolves(payload: Option<JwtPayload.Payload>)

  const JwksPrefix := "/api/v1/management/applications/"
  const JwksSuffix := "/jwks.json"

  /** The key-set path of a client: the client id between the management API prefix
      and the `jwks.json` suffix. */
  function JwksPath(clientId: string): (r: string)
    ensures |r| == |JwksPrefix| + |clientId| + |JwksSuffix|
    ensures r[..|JwksPrefix|] == JwksPrefix
    ensures r[|JwksPrefix|..|JwksPrefix| + |clientId|] == clientId
    ensures r[|JwksPrefix| + |clientId|..] == JwksSuffix
  {
    JwksPrefix + clientId + JwksSuffix
  }

  /** Different clients fetch different key sets. */
  lemma JwksPathInjective(c1: string, c2: string)
    requires JwksPath(c1) == JwksPath(c2)
    ensures c1 == c2
  {
    assert |c1| == |c2|;
  }

  /** The key-set URL for the configured client; `None` when `new URL` throws. */
  function JwksUrl(cfg: Config, lib: Lib): Option<string> {
    lib.resolveUrl(JwksPath(cfg.clientId), cfg.devPortalHost)
  }

  /** `getJWTPayload`. It rejects only when the token cannot be constructed or the
      key-set URL cannot be built (both happen outside the `try`); it resolves to
      `null` when the token's audience is not the configured client id; otherwise it
      resolves to the constructed payload, verified exactly when the signature
      checks against the key for its `kid`. */
  function GetJwtPayload(cfg: Config, lib: Lib, net: Net, idToken: string): (r: PayloadPromise)
    ensures r.Rejects? <==>
      JwtPayload.FromToken(lib, idToken).None? ||
      (JString(cfg.clientId) == JwtPayload.FromToken(lib, idToken).value.clientId && JwksUrl(cfg, lib).None?)
    ensures r == Resolves(None) <==>
      JwtPayload.FromToken(lib, idToken).Some? &&
      JwtPayload.FromToken(lib, idToken).value.clientId != JString(cfg.clientId)
    ensures r.Resolves? && r.payload.Some? ==>
      && r.payload.value == JwtPayload.FromToken(lib, idToken).value.(verified := r.payload.value.verified)
      && r.payload.value.clientId == JString(cfg.clientId)
      && (r.payload.value.verified <==>
          SignatureChecks(net, JwksUrl(cfg, lib).value, idToken, JwtPayload.Kid(r.payload.value)))
  {
    match JwtPayload.FromToken(lib, idToken)
    case None => Rejects
    case Some(p) =>
      if !StrictEquals(JString(cfg.clientId), p.clientId) then Resolves(None)
      else
        match JwksUrl(cfg, lib)
        case None => Rejects
        case Some(url) => Resolves(Some(p.(verified := SignatureChecks(net, url, idToken, JwtPayload.Kid(p)))))
  }

  /** A client-id mismatch is decided before any request: the result is the same
      whatever the network does. */
  lemma MismatchFetchesNothing(cfg: Config, lib: Lib, net1: Net, net2: Net, idToken: string)
    requires JwtPayload.FromToken(lib, idToken).Some?
    requires JwtPayload.FromToken(lib, idToken).value.clientId != JString(cfg.clientId)
    ensures GetJwtPayload(cfg, lib, net1, idToken) == GetJwtPayload(cfg, lib, net2, idToken) == Resolves(None)
  {
  }

  /** A well-formed token whose body carries the claims `c` for the configured
      client resolves to the payload of `c`, verified exactly when the signature
      checks against the key for the header's `kid`. */
  lemma TokenPayload(cfg: Config, lib: Lib, net: Net, header: string, body: string, sig: string,
                     h: Json, b: Json, c: JwtPayload.Claims)
    requires '.' !in header && '.' !in body
    requires lib.parseJson(lib.base64Decode(header)) == Some(h) && Truthy(h)
    requires lib.parseJson(lib.base64Decode(body)) == Some(b) && JwtPayload.Carries(b, c)
    requires JwtPayload.AudienceClientId(c.aud) == JString(cfg.clientId)
    requires JwksUrl(cfg, lib).Some?
    ensures var token := header + "." + body + "." + sig;
      GetJwtPayload(cfg, lib, net, token) == Resolves(Some(
        JwtPayload.ClaimsPayload(lib.stringify, h, c).(verified :=
          SignatureChecks(net, JwksUrl(cfg, lib).value, token, Prop(h, "kid").GetOr(JUndefined)))))
  {
    JwtPayload.TokenCarriesClaims(lib, header, body, sig, h, b, c);
  }

  /** `getLearnUrlFromJwtPayload`: the origin (`protocol//host`) of the payload's
      return URL; `None` when `new URL` throws on it. */
  function GetLearnUrl(lib: Lib, p: JwtPayload.Payload): (r: Option<string>)
    ensures r.Some? <==> lib.parseUrl(JsString(p.returnUrl)).Some?
    ensures r.Some? ==>
      var u := lib.parseUrl(JsString(p.returnUrl)).value;
      r.value == u.protocol + "//" + u.host
    ensures r.Some? ==> Strings.EndsWith(r.value, lib.parseUrl(JsString(p.returnUrl)).value.host)
  {
    match lib.parseUrl(JsString(p.returnUrl))
    case None => None
    case Some(u) =>
      Strings.EndsWithAppend(u.protocol + "//", u.host);
      Some(u.protocol + "//" + u.host)
  }

  /** The platform URL drops the path and query of the return URL: return URLs with
      the same protocol and host give the same platform URL. */
  lemma LearnUrlIgnoresPathAndQuery(lib: Lib, p1: JwtPayload.Payload, p2: JwtPayload.Payload)
    requires lib.parseUrl(JsString(p1.returnUrl)).Some? && lib.parseUrl(JsString(p2.returnUrl)).Some?
    requires lib.parseUrl(JsString(p1.returnUrl)).value.protocol == lib.parseUrl(JsString(p2.returnUrl)).value.protocol
    requires lib.parseUrl(JsString(p1.returnUrl)).value.host == lib.parseUrl(JsString(p2.returnUrl)).value.host
    ensures GetLearnUrl(lib, p1) == GetLearnUrl(lib, p2)
  {
  }
}
