/** The decoded LTI 1.3 id_token (src/jwt-payload.ts): the key id from the header
    segment and the launch claims from the body segment, read under the fixed claim
    names of the IMS LTI 1.3 Core specification. */
module JwtPayload {
  import opened Optional
  import opened Js
  import Strings

  const VersionClaim := "https://purl.imsglobal.org/spec/lti/claim/version"
  const TargetLinkUriClaim := "https://purl.imsglobal.org/spec/lti/claim/target_link_uri"
  const LaunchPresentationClaim := "https://purl.imsglobal.org/spec/lti/claim/launch_presentation"
  const ToolPlatformClaim := "https://purl.imsglobal.org/spec/lti/claim/tool_platform"
  const CustomClaim := "https://purl.imsglobal.org/spec/lti/claim/custom"
  const SessionTokenClaim := "https://blackboard.com/lti/claim/one_time_session_token"

  /** A constructed `JWTPayload`. Each field is what its getter returns; claim values
      keep their JSON type, since the source copies them without checking it. */
  datatype Payload = Payload(
    verified: bool,
    header: Json,
    clientId: Json,
    version: Json,
    locale: Json,
    targetLinkUri: Json,
    returnUrl: Json,
    lmsHost: Json,
    customParams: Option<string>,
    sessionToken: Json)

  /** The `kid` getter: read from the header segment on every call. */
  function Kid(p: Payload): (r: Json)
    ensures p.header.JObject? && "kid" in p.header.fields ==> r == p.header.fields["kid"]
    ensures !(p.header.JObject? && "kid" in p.header.fields) ==> r == JUndefined
  {
    Prop(p.header, "kid").GetOr(JUndefined)
  }

  /** A top-level claim of a body that is an object or another truthy value. */
  function Claim(body: Json, name: string): (r: Json)
    requires Truthy(body)
    ensures body.JObject? && name in body.fields ==> r == body.fields[name]
    ensures !(body.JObject? && name in body.fields) ==> r == JUndefined
  {
    Prop(body, name).value
  }

  /** The audience rule: the first element of an array `aud`, otherwise `aud`
      itself. */
  function AudienceClientId(aud: Json): (r: Json)
    ensures aud.JArray? && |aud.items| > 0 ==> r == aud.items[0]
    ensures aud.JArray? && |aud.items| == 0 ==> r == JUndefined
    ensures !aud.JArray? ==> r == aud
  {
    match aud
    case JArray(items) => if |items| > 0 then items[0] else JUndefined
    case _ => aud
  }

  /** `parseBody` on the decoded header and body. `None` is the TypeError thrown when
      the launch-presentation or tool-platform claim is `null` or absent. */
  function FromSegments(stringify: Json -> Option<string>, header: Json, body: Json): (r: Option<Payload>)
    requires Truthy(header) && Truthy(body)
    ensures r.None? <==>
      Prop(Claim(body, LaunchPresentationClaim), "return_url").None? ||
      Prop(Claim(body, ToolPlatformClaim), "url").None?
    ensures r.Some? ==> !r.value.verified && r.value.header == header
  {
    var presentation := Prop(Claim(body, LaunchPresentationClaim), "return_url");
    var platform := Prop(Claim(body, ToolPlatformClaim), "url");
    if presentation.None? || platform.None? then None
    else Some(Payload(
      verified := false,
      header := header,
      clientId := AudienceClientId(Claim(body, "aud")),
      version := Claim(body, VersionClaim),
      locale := Claim(body, "locale"),
      targetLinkUri := Claim(body, TargetLinkUriClaim),
      returnUrl := presentation.value,
      lmsHost := platform.value,
      customParams := stringify(Claim(body, CustomClaim)),
      sessionToken := Claim(body, SessionTokenClaim)))
  }

  /** The token has a header and a body segment, and both parse. */
  predicate Decodes(lib: Lib, idToken: string) {
    var parts := Strings.Split(idToken, '.');
    && |parts| >= 2
    && lib.parseJson(lib.base64Decode(parts[0])).Some?
    && lib.parseJson(lib.base64Decode(parts[1])).Some?
  }

  /** The parsed header segment of a token that decodes, `{}` when it is falsy. */
  function HeaderOf(lib: Lib, idToken: string): (r: Json)
    requires Decodes(lib, idToken)
    ensures Truthy(r)
  {
    OrEmptyObject(lib.parseJson(lib.base64Decode(Strings.Split(idToken, '.')[0])).value)
  }

  /** The parsed body segment of a token that decodes, `{}` when it is falsy. */
  function BodyOf(lib: Lib, idToken: string): (r: Json)
    requires Decodes(lib, idToken)
    ensures Truthy(r)
  {
    OrEmptyObject(lib.parseJson(lib.base64Decode(Strings.Split(idToken, '.')[1])).value)
  }

  /** `new JWTPayload(idToken)`: split on `.`, base64-decode and JSON-parse the first
      two segments (a falsy parse result becomes `{}`), then `parseBody`. `None` when
      the constructor throws: fewer than two segments, a segment that does not
      parse, or a missing claim object. The third (signature) segment is not read. */
  function FromToken(lib: Lib, idToken: string): (r: Option<Payload>)
    ensures r.Some? ==> !r.value.verified
    ensures r.Some? ==> Decodes(lib, idToken)
    ensures Decodes(lib, idToken) ==> r == FromSegments(lib.stringify, HeaderOf(lib, idToken), BodyOf(lib, idToken))
  {
    var parts := Strings.Split(idToken, '.');
    if |parts| < 2 then None
    else
      match lib.parseJson(lib.base64Decode(parts[0]))
      case None => None
      case Some(h) =>
        match lib.parseJson(lib.base64Decode(parts[1]))
        case None => None
        case Some(b) => FromSegments(lib.stringify, OrEmptyObject(h), OrEmptyObject(b))
  }

  /** The claim values of a launch, as a platform writes them. */
  datatype Claims = Claims(
    aud: Json, version: Json, locale: Json, targetLinkUri: Json,
    returnUrl: Json, platformUrl: Json, custom: Json, sessionToken: Json)

  /** `body` is an object holding each claim of `c` under its fixed name, with the
      return URL and the platform URL inside their claim objects; it may hold any
      other claims (`iss`, `sub`, `nonce`, `exp`, ...) and other members too. */
  predicate Carries(body: Json, c: Claims) {
    && body.JObject?
    && "aud" in body.fields && body.fields["aud"] == c.aud
    && VersionClaim in body.fields && body.fields[VersionClaim] == c.version
    && "locale" in body.fields && body.fields["locale"] == c.locale
    && TargetLinkUriClaim in body.fields && body.fields[TargetLinkUriClaim] == c.targetLinkUri
    && LaunchPresentationClaim in body.fields && body.fields[LaunchPresentationClaim].JObject?
    && "return_url" in body.fields[LaunchPresentationClaim].fields
    && body.fields[LaunchPresentationClaim].fields["return_url"] == c.returnUrl
    && ToolPlatformClaim in body.fields && body.fields[ToolPlatformClaim].JObject?
    && "url" in body.fields[ToolPlatformClaim].fields
    && body.fields[ToolPlatformClaim].fields["url"] == c.platformUrl
    && CustomClaim in body.fields && body.fields[CustomClaim] == c.custom
    && SessionTokenClaim in body.fields && body.fields[SessionTokenClaim] == c.sessionToken
  }

  /** The payload the getters should present for the claims `c`. */
  function ClaimsPayload(stringify: Json -> Option<string>, header: Json, c: Claims): Payload {
    Payload(
      verified := false,
      header := header,
      clientId := AudienceClientId(c.aud),
      version := c.version,
      locale := c.locale,
      targetLinkUri := c.targetLinkUri,
      returnUrl := c.returnUrl,
      lmsHost := c.platformUrl,
      customParams := stringify(c.custom),
      sessionToken := c.sessionToken)
  }

  /** Every claim a platform writes is read back from its own claim name, whatever
      else the body holds: the getters return exactly the values in the body,
      `customParams` is the serialised custom claim, and the payload starts out
      unverified. */
  lemma ClaimsRoundTrip(stringify: Json -> Option<string>, header: Json, body: Json, c: Claims)
    requires Truthy(header) && Carries(body, c)
    ensures FromSegments(stringify, header, body) == Some(ClaimsPayload(stringify, header, c))
  {
  }

  /** A token whose header segment parses to `h` and whose body segment parses to
      a body carrying `c` constructs the payload of `c`, whatever its signature. */
  lemma {:induction false} TokenCarriesClaims(lib: Lib, header: string, body: string, sig: string, h: Json, b: Json, c: Claims)
    requires '.' !in header && '.' !in body
    requires lib.parseJson(lib.base64Decode(header)) == Some(h) && Truthy(h)
    requires lib.parseJson(lib.base64Decode(body)) == Some(b) && Carries(b, c)
    ensures FromToken(lib, header + "." + body + "." + sig) == Some(ClaimsPayload(lib.stringify, h, c))
  {
    var token := header + "." + body + "." + sig;
    SplitThree(header, body, sig);
    var parts := Strings.Split(token, '.');
    assert parts[0] == parts[..2][0] && parts[1] == parts[..2][1];
    assert Decodes(lib, token);
    assert HeaderOf(lib, token) == h;
    assert BodyOf(lib, token) == b;
    ClaimsRoundTrip(lib.stringify, h, b, c);
  }

  /** Claims come from the body segment only: two headers with the same body give
      payloads that differ at most in the header (and so in `kid`). */
  lemma ClaimsIgnoreHeader(stringify: Json -> Option<string>, h1: Json, h2: Json, body: Json)
    requires Truthy(h1) && Truthy(h2) && Truthy(body)
    ensures FromSegments(stringify, h1, body).Some? <==> FromSegments(stringify, h2, body).Some?
    ensures FromSegments(stringify, h1, body).Some? ==>
      FromSegments(stringify, h1, body).value.(header := h2) == FromSegments(stringify, h2, body).value
  {
  }

  /** The signature segment is never read: tokens that agree on their first two
      segments construct the same payload (or both fail). */
  lemma SignatureNotRead(lib: Lib, t1: string, t2: string)
    requires |Strings.Split(t1, '.')| >= 2 && |Strings.Split(t2, '.')| >= 2
    requires Strings.Split(t1, '.')[..2] == Strings.Split(t2, '.')[..2]
    ensures FromToken(lib, t1) == FromToken(lib, t2)
  {
    assert Strings.Split(t1, '.')[0] == Strings.Split(t1, '.')[..2][0];
    assert Strings.Split(t1, '.')[1] == Strings.Split(t1, '.')[..2][1];
    assert Strings.Split(t2, '.')[0] == Strings.Split(t2, '.')[..2][0];
    assert Strings.Split(t2, '.')[1] == Strings.Split(t2, '.')[..2][1];
  }

  /** The signature segment is never read, stated on the token text: a header and a
      body segment followed by any signature construct what the two segments alone
      (with an empty signature) construct. */
  lemma AnySignature(lib: Lib, header: string, body: string, sig1: string, sig2: string)
    requires '.' !in header && '.' !in body
    ensures FromToken(lib, header + "." + body + "." + sig1) == FromToken(lib, header + "." + body + "." + sig2)
  {
    SplitThree(header, body, sig1);
    SplitThree(header, body, sig2);
    SignatureNotRead(lib, header + "." + body + "." + sig1, header + "." + body + "." + sig2);
  }

  /** The first two pieces of `h.b.s` are `h` and `b`. */
  lemma SplitThree(h: string, b: string, s: string)
    requires '.' !in h && '.' !in b
    ensures |Strings.Split(h + "." + b + "." + s, '.')| >= 2
    ensures Strings.Split(h + "." + b + "." + s, '.')[..2] == [h, b]
  {
    assert h + "." + b + "." + s == h + ['.'] + (b + ['.'] + s);
    Strings.SplitAfter(h, b + ['.'] + s, '.');
    Strings.SplitAfter(b, s, '.');
  }
}
