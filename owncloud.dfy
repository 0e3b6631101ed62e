/** The Owncloud OAuth2 provider: configuration defaulting, redemption of an
    authorization code for an access token, and resolution of the user's identifier.
    Network calls and library decoders are parameters (oracles) of the operations. */
module Owncloud {
  import opened Wrappers
  import opened Bytes
  import Base64
  import opened Urls

  /* ---------------------------------------------------------------------------
     Configuration
     ------------------------------------------------------------------------- */

  /** The placeholders on http://localhost that stand in for URLs left unconfigured. */
  const LoginDefault := Url("http", "localhost", "/index.php/apps/oauth2/authorize", "", "")
  const RedeemDefault := Url("http", "localhost", "/index.php/apps/oauth2/api/v1/token", "", "")
  const ProfileDefault := Url("http", "localhost", "/ocs/v1.php/cloud/user", "", "")

  /** A snapshot of the fields of `ProviderData` the provider uses. */
  datatype ProviderConfig = ProviderConfig(
    providerName: string,
    loginUrl: Option<Url>,
    redeemUrl: Option<Url>,
    validateUrl: Option<Url>,
    clientId: string,
    clientSecret: string,
    protectedResource: Option<Url>)

  /** `u == nil || u.String() == ""`: the test the provider applies to each URL. */
  predicate Unset(u: Option<Url>)
    ensures Unset(u) <==> u.None? || u.value == Url("", "", "", "", "")
  {
    u.None? || u.value.String() == ""
  }

  /** The effect of `NewOwncloudProvider` on the configuration, as the code is written:
      the third test looks at ValidateURL but assigns RedeemURL. */
  function Resolve(c: ProviderConfig): (r: ProviderConfig)
    ensures r.providerName == "Owncloud"
    ensures r.loginUrl == if Unset(c.loginUrl) then Some(LoginDefault) else c.loginUrl
    ensures r.redeemUrl == if Unset(c.validateUrl) then Some(ProfileDefault)
                           else if Unset(c.redeemUrl) then Some(RedeemDefault)
                           else c.redeemUrl
    ensures r.validateUrl == c.validateUrl
    ensures r.clientId == c.clientId && r.clientSecret == c.clientSecret
    ensures r.protectedResource == c.protectedResource
  {
    var named := c.(providerName := "Owncloud");
    var login := if Unset(named.loginUrl) then named.(loginUrl := Some(LoginDefault)) else named;
    var redeem := if Unset(login.redeemUrl) then login.(redeemUrl := Some(RedeemDefault)) else login;
    if Unset(redeem.validateUrl) then redeem.(redeemUrl := Some(ProfileDefault)) else redeem
  }

  /** After defaulting, the login and redemption endpoints are always set. */
  lemma ResolveSetsLoginAndRedeem(c: ProviderConfig)
    ensures !Unset(Resolve(c).loginUrl) && !Unset(Resolve(c).redeemUrl)
  {
  }

  /** A configured RedeemURL survives exactly when ValidateURL is configured too
      (or when it already is the profile placeholder that overwrites it). */
  lemma ResolveKeepsRedeemIff(c: ProviderConfig)
    ensures Resolve(c).redeemUrl == c.redeemUrl <==>
      (!Unset(c.validateUrl) && !Unset(c.redeemUrl)) ||
      (Unset(c.validateUrl) && c.redeemUrl == Some(ProfileDefault))
  {
  }

  /** As written, an unset ValidateURL stays unset. */
  lemma ResolveLeavesProfileUnset(c: ProviderConfig)
    ensures Unset(c.validateUrl) ==> Unset(Resolve(c).validateUrl)
    ensures Resolve(ProviderConfig("", None, None, None, "id", "secret", None)).validateUrl == None
  {
  }

  /** Defaulting twice is defaulting once. */
  lemma ResolveIdempotent(c: ProviderConfig)
    ensures Resolve(Resolve(c)) == Resolve(c)
  {
  }

  /** The defaulting the third test evidently intends: it fills in ValidateURL. */
  function ResolveIntended(c: ProviderConfig): (r: ProviderConfig)
    ensures !Unset(r.loginUrl) && !Unset(r.redeemUrl) && !Unset(r.validateUrl)
    ensures !Unset(c.loginUrl) ==> r.loginUrl == c.loginUrl
    ensures !Unset(c.redeemUrl) ==> r.redeemUrl == c.redeemUrl
    ensures !Unset(c.validateUrl) ==> r.validateUrl == c.validateUrl
    ensures Unset(c.loginUrl) ==> r.loginUrl == Some(LoginDefault)
    ensures Unset(c.redeemUrl) ==> r.redeemUrl == Some(RedeemDefault)
    ensures Unset(c.validateUrl) ==> r.validateUrl == Some(ProfileDefault)
    ensures r == Resolve(c).(redeemUrl := r.redeemUrl, validateUrl := r.validateUrl)
  {
    var named := c.(providerName := "Owncloud");
    var login := if Unset(named.loginUrl) then named.(loginUrl := Some(LoginDefault)) else named;
    var redeem := if Unset(login.redeemUrl) then login.(redeemUrl := Some(RedeemDefault)) else login;
    assert LoginDefault != Url("", "", "", "", "");
    assert RedeemDefault != Url("", "", "", "", "");
    assert ProfileDefault != Url("", "", "", "", "");
    if Unset(redeem.validateUrl) then redeem.(validateUrl := Some(ProfileDefault)) else redeem
  }

  /** `ProviderData`, the configuration object shared with the rest of the proxy. */
  class ProviderData {
    var providerName: string
    var loginUrl: Option<Url>
    var redeemUrl: Option<Url>
    var validateUrl: Option<Url>
    var clientId: string
    var clientSecret: string
    var protectedResource: Option<Url>

    constructor (c: ProviderConfig)
      ensures Config() == c
    {
      providerName, loginUrl, redeemUrl, validateUrl := c.providerName, c.loginUrl, c.redeemUrl, c.validateUrl;
      clientId, clientSecret, protectedResource := c.clientId, c.clientSecret, c.protectedResource;
    }

    function Config(): ProviderConfig
      reads this
    {
      ProviderConfig(providerName, loginUrl, redeemUrl, validateUrl, clientId, clientSecret, protectedResource)
    }
  }

  /** `NewOwncloudProvider`: fills in the shared configuration in place and wraps it. */
  method NewOwncloudProvider(p: ProviderData) returns (o: OwncloudProvider)
    modifies p
    ensures fresh(o) && o.providerData == p
    ensures p.Config() == Resolve(old(p.Config()))
  {
    p.providerName := "Owncloud";
    if Unset(p.loginUrl) {
      p.loginUrl := Some(LoginDefault);
    }
    if Unset(p.redeemUrl) {
      p.redeemUrl := Some(RedeemDefault);
    }
    if Unset(p.validateUrl) {
      p.redeemUrl := Some(ProfileDefault);
    }
    o := new OwncloudProvider(p);
  }

  /* ---------------------------------------------------------------------------
     Requests, responses and errors
     ------------------------------------------------------------------------- */

  /** Header names to values; every header the provider sets has one value. */
  type Header = map<string, string>

  /** The request the provider hands to the HTTP client. */
  datatype Request = Request(verb: string, url: string, header: Header, form: seq<Param>)

  /** The status and the whole body of a response. */
  datatype Response = Response(status: int, body: seq<byte>)

  datatype SessionState = SessionState(accessToken: string)

  /** The one field of the decoded profile the provider uses: `ocs.data.id`. */
  datatype Profile = Profile(id: string)

  datatype Error =
    | MissingCode                                       // "missing code"
    | MissingAccessToken                                // "missing access token"
    | Upstream(status: int, url: string, body: seq<byte>)  // "got <status> from <url> <body>"
    | NoAccessToken(body: seq<byte>)                    // "no access token found <body>"
    | NoId                                              // "no id"
    | Library(message: string)                          // from the transport or a decoder, passed on unchanged

  const FormContentType := "application/x-www-form-urlencoded"

  /* ---------------------------------------------------------------------------
     Redemption (access token request, section 4.1.3 of RFC 6749)
     ------------------------------------------------------------------------- */

  /** The form parameters in the order the provider adds them. */
  function RedeemParams(c: ProviderConfig, redirectUrl: string, code: string): (ps: seq<Param>)
    ensures Keys(ps) == ["redirect_uri", "client_id", "client_secret", "code", "grant_type"]
                        + (if Unset(c.protectedResource) then [] else ["resource"])
  {
    [("redirect_uri", redirectUrl), ("client_id", c.clientId), ("client_secret", c.clientSecret),
     ("code", code), ("grant_type", "authorization_code")]
    + (if Unset(c.protectedResource) then [] else [("resource", c.protectedResource.value.String())])
  }

  /** Reading the form back gives each of the five fixed parameters its value. */
  lemma RedeemParamsValues(c: ProviderConfig, redirectUrl: string, code: string)
    ensures Get(RedeemParams(c, redirectUrl, code), "redirect_uri") == redirectUrl
    ensures Get(RedeemParams(c, redirectUrl, code), "client_id") == c.clientId
    ensures Get(RedeemParams(c, redirectUrl, code), "client_secret") == c.clientSecret
    ensures Get(RedeemParams(c, redirectUrl, code), "code") == code
    ensures Get(RedeemParams(c, redirectUrl, code), "grant_type") == "authorization_code"
  {
    var ps := RedeemParams(c, redirectUrl, code);
    assert ps[0] == ("redirect_uri", redirectUrl) && ps[1] == ("client_id", c.clientId);
    assert ps[2] == ("client_secret", c.clientSecret) && ps[3] == ("code", code);
    assert ps[4] == ("grant_type", "authorization_code");
    assert |ps[0].0| == 12 && |ps[1].0| == 9 && |ps[2].0| == 13 && |ps[3].0| == 4 && |ps[4].0| == 10;
    GetFirst(ps, 0);
    GetFirst(ps, 1);
    GetFirst(ps, 2);
    GetFirst(ps, 3);
    GetFirst(ps, 4);
  }

  /** `resource` is present, with the protected resource's string form, exactly when a
      protected resource is configured with a non-empty string form. */
  lemma RedeemParamsResource(c: ProviderConfig, redirectUrl: string, code: string)
    ensures "resource" in Keys(RedeemParams(c, redirectUrl, code)) <==> !Unset(c.protectedResource)
    ensures Get(RedeemParams(c, redirectUrl, code), "resource")
            == if Unset(c.protectedResource) then "" else c.protectedResource.value.String()
  {
    var ps := RedeemParams(c, redirectUrl, code);
    var ks := Keys(ps);
    assert |ks[0]| == 12 && |ks[1]| == 9 && |ks[2]| == 13 && |ks[3]| == 4 && |ks[4]| == 10;
    if !Unset(c.protectedResource) {
      assert ks[5] == "resource";
      GetFirst(ps, 5);
    } else {
      assert "resource" !in ks;
    }
  }

  /** The credentials of an `Authorization: Basic` header value (section 2 of RFC 7617):
      the base64-decoded bytes after the scheme. */
  function BasicCredentials(v: string): Option<seq<byte>> {
    if |v| >= 6 && v[..6] == "Basic " then Base64.Decode(v[6..]) else None
  }

  /** The client's Basic header value: `"Basic " + base64(ClientID + ":" + ClientSecret)`. */
  function BasicAuthorization(clientId: string, clientSecret: string): (v: string)
    ensures BasicCredentials(v) == Some(Utf8(clientId) + [0x3A] + Utf8(clientSecret))
  {
    BasicAuthorizationDecodes(clientId, clientSecret);
    "Basic " + Base64.Encode(Utf8(clientId + ":" + clientSecret))
  }

  lemma BasicAuthorizationDecodes(clientId: string, clientSecret: string)
    ensures BasicCredentials("Basic " + Base64.Encode(Utf8(clientId + ":" + clientSecret)))
            == Some(Utf8(clientId) + [0x3A] + Utf8(clientSecret))
  {
    var credentials := Utf8(clientId + ":" + clientSecret);
    Utf8Append(clientId + ":", clientSecret);
    Utf8Append(clientId, ":");
    assert Utf8(":") == [0x3A];
    assert credentials == Utf8(clientId) + [0x3A] + Utf8(clientSecret);
    Base64.DecodeEncode(credentials);
    var encoded := Base64.Encode(credentials);
    var v := "Basic " + encoded;
    assert v[..6] == "Basic " && v[6..] == encoded;
  }

  /** The token request: a form POST to RedeemURL that carries the client credentials
      both in the form and in a Basic header (section 2.3.1 of RFC 6749). */
  function TokenRequest(c: ProviderConfig, redirectUrl: string, code: string): (r: Request)
    requires c.redeemUrl.Some?
    ensures r.verb == "POST" && r.url == c.redeemUrl.value.String()
    ensures r.header.Keys == {"Content-Type", "Authorization"}
    ensures r.header["Content-Type"] == FormContentType
    ensures BasicCredentials(r.header["Authorization"]) == Some(Utf8(c.clientId) + [0x3A] + Utf8(c.clientSecret))
    ensures r.header["Authorization"] == BasicAuthorization(c.clientId, c.clientSecret)
    ensures r.form == RedeemParams(c, redirectUrl, code)
    ensures Get(r.form, "client_id") == c.clientId && Get(r.form, "client_secret") == c.clientSecret
  {
    RedeemParamsValues(c, redirectUrl, code);
    var header := map["Content-Type" := FormContentType,
                      "Authorization" := BasicAuthorization(c.clientId, c.clientSecret)];
    assert header.Keys == {"Content-Type", "Authorization"};
    Request("POST", c.redeemUrl.value.String(), header, RedeemParams(c, redirectUrl, code))
  }

  /** How a response of the token endpoint becomes a session or an error: any status
      but 200 is an error; a body that decodes as JSON is trusted; otherwise the body is
      read as a query string, whose `access_token` must be non-empty. */
  function ClassifyTokenResponse(redeemUrl: string, resp: Response,
                                 decodeJson: seq<byte> -> Result<string, Error>,
                                 parseQuery: seq<byte> -> Result<seq<Param>, Error>): (r: Result<SessionState, Error>)
    ensures r.Success? ==> resp.status == 200
    ensures r.Success? && r.value.accessToken == "" ==> decodeJson(resp.body) == Success("")
  {
    if resp.status != 200 then Failure(Upstream(resp.status, redeemUrl, resp.body))
    else
      match decodeJson(resp.body)
      case Success(token) => Success(SessionState(token))
      case Failure(_) =>
        match parseQuery(resp.body)
        case Failure(e) => Failure(e)
        case Success(values) =>
          var token := Get(values, "access_token");
          if token != "" then Success(SessionState(token)) else Failure(NoAccessToken(resp.body))
  }

  /** A status other than 200 is an error that carries the status, the endpoint and the
      body, whatever the body holds. */
  lemma Non200IsUpstreamError(redeemUrl: string, resp: Response,
                              decodeJson: seq<byte> -> Result<string, Error>,
                              parseQuery: seq<byte> -> Result<seq<Param>, Error>)
    requires resp.status != 200
    ensures ClassifyTokenResponse(redeemUrl, resp, decodeJson, parseQuery)
            == Failure(Upstream(resp.status, redeemUrl, resp.body))
  {
  }

  /** A body that decodes as JSON gives a session with the decoded token, even an empty
      one, and the query-string reading is never consulted. */
  lemma JsonIsTrusted(redeemUrl: string, resp: Response,
                      decodeJson: seq<byte> -> Result<string, Error>,
                      parseQuery: seq<byte> -> Result<seq<Param>, Error>,
                      otherParseQuery: seq<byte> -> Result<seq<Param>, Error>)
    requires resp.status == 200 && decodeJson(resp.body).Success?
    ensures ClassifyTokenResponse(redeemUrl, resp, decodeJson, parseQuery)
            == ClassifyTokenResponse(redeemUrl, resp, decodeJson, otherParseQuery)
            == Success(SessionState(decodeJson(resp.body).value))
  {
  }

  /** When JSON decoding fails: a parse error is returned as it is; otherwise the session
      holds exactly the parsed `access_token`, and an empty one is "no access token found". */
  lemma FormFallback(redeemUrl: string, resp: Response,
                     decodeJson: seq<byte> -> Result<string, Error>,
                     parseQuery: seq<byte> -> Result<seq<Param>, Error>)
    requires resp.status == 200 && decodeJson(resp.body).Failure?
    ensures var r := ClassifyTokenResponse(redeemUrl, resp, decodeJson, parseQuery);
      match parseQuery(resp.body)
      case Failure(e) => r == Failure(e)
      case Success(values) =>
        && (r.Success? <==> Get(values, "access_token") != "")
        && (r.Success? ==> r.value == SessionState(Get(values, "access_token")))
        && (r.Failure? ==> r.error == NoAccessToken(resp.body))
  {
  }

  /* ---------------------------------------------------------------------------
     Identity resolution
     ------------------------------------------------------------------------- */

  /** The token of an `Authorization: Bearer` header value (section 2.1 of RFC 6750). */
  function BearerToken(v: string): Option<string> {
    if |v| >= 7 && v[..7] == "Bearer " then Some(v[7..]) else None
  }

  /** `getOwncloudHeader`: a header holding only the bearer authorization. */
  function OwncloudHeader(accessToken: string): (h: Header)
    ensures h.Keys == {"Authorization"}
    ensures BearerToken(h["Authorization"]) == Some(accessToken)
  {
    var v := "Bearer " + accessToken;
    assert v[..7] == "Bearer " && v[7..] == accessToken;
    map["Authorization" := v]
  }

  /** The profile request: a GET of ValidateURL with `?format=json` and the bearer header. */
  function ProfileRequest(validateUrl: Url, accessToken: string): (r: Request)
    ensures r.verb == "GET" && r.url == validateUrl.String() + "?format=json" && r.form == []
    ensures r.header.Keys == {"Authorization"}
    ensures BearerToken(r.header["Authorization"]) == Some(accessToken)
  {
    Request("GET", validateUrl.String() + "?format=json", OwncloudHeader(accessToken), [])
  }

  /** The identifier: the provider's account id, "@", and the host of the login endpoint. */
  function Identifier(id: string, host: string): (r: string)
    ensures |r| == |id| + 1 + |host|
    ensures r[..|id|] == id && r[|id|] == '@' && r[|id| + 1..] == host
  {
    id + "@" + host
  }

  /** For a fixed login host, distinct account ids give distinct identifiers. */
  lemma IdentifierInjective(id1: string, id2: string, host: string)
    requires Identifier(id1, host) == Identifier(id2, host)
    ensures id1 == id2
  {
    var s1, s2 := Identifier(id1, host), Identifier(id2, host);
    assert |id1| == |id2|;
    assert id1 == s1[..|id1|] && id2 == s2[..|id2|];
  }

  /** The provider object; it shares its `ProviderData` with the caller. */
  class OwncloudProvider {
    const providerData: ProviderData

    constructor (p: ProviderData)
      ensures providerData == p
    {
      providerData := p;
    }

    /** `Redeem`: exchanges an authorization code for an access token. `transport` stands
        for building, sending and reading the request; `attempted` is the request it is
        given, None when no request is made. */
    method Redeem(redirectUrl: string, code: string,
                  transport: Request -> Result<Response, Error>,
                  decodeJson: seq<byte> -> Result<string, Error>,
                  parseQuery: seq<byte> -> Result<seq<Param>, Error>)
      returns (s: Result<SessionState, Error>, attempted: Option<Request>)
      requires code != "" ==> providerData.redeemUrl.Some?
      ensures code == "" <==> attempted == None
      ensures code == "" ==> s == Failure(MissingCode)
      ensures code != "" ==> attempted == Some(TokenRequest(providerData.Config(), redirectUrl, code))
      ensures code != "" ==> s == match transport(attempted.value)
        case Failure(e) => Failure(e)
        case Success(resp) =>
          ClassifyTokenResponse(providerData.redeemUrl.value.String(), resp, decodeJson, parseQuery)
    {
      if code == "" {
        return Failure(MissingCode), None;
      }
      var params := new Values();
      params.Add("redirect_uri", redirectUrl);
      params.Add("client_id", providerData.clientId);
      params.Add("client_secret", providerData.clientSecret);
      params.Add("code", code);
      params.Add("grant_type", "authorization_code");
      if !Unset(providerData.protectedResource) {
        params.Add("resource", providerData.protectedResource.value.String());
      }
      assert params.pairs == RedeemParams(providerData.Config(), redirectUrl, code);
      var header: Header := map[];
      header := header["Content-Type" := FormContentType];
      header := header["Authorization" := BasicAuthorization(providerData.clientId, providerData.clientSecret)];
      var req := Request("POST", providerData.redeemUrl.value.String(), header, params.pairs);
      assert req == TokenRequest(providerData.Config(), redirectUrl, code);
      attempted := Some(req);
      var sent := transport(req);
      if sent.Failure? {
        return Failure(sent.error), attempted;
      }
      s := ClassifyTokenResponse(providerData.redeemUrl.value.String(), sent.value, decodeJson, parseQuery);
    }

    /** `GetEmailAddress`: resolves the session's access token to the user's identifier.
        `requestJson` stands for sending the request and decoding the profile. */
    function GetEmailAddress(s: SessionState, requestJson: Request -> Result<Profile, Error>): (r: Result<string, Error>)
      reads providerData
      requires s.accessToken != "" ==> providerData.validateUrl.Some?
      requires s.accessToken != "" && providerData.validateUrl.Some?
               && requestJson(ProfileRequest(providerData.validateUrl.value, s.accessToken)).Success?
               && requestJson(ProfileRequest(providerData.validateUrl.value, s.accessToken)).value.id != ""
               ==> providerData.loginUrl.Some?
      ensures s.accessToken == "" ==> r == Failure(MissingAccessToken)
      ensures r.Success? ==>
        && s.accessToken != ""
        && var profile := requestJson(ProfileRequest(providerData.validateUrl.value, s.accessToken));
        && profile.Success? && profile.value.id != ""
        && r.value == Identifier(profile.value.id, providerData.loginUrl.value.host)
      ensures s.accessToken != "" ==>
        var profile := requestJson(ProfileRequest(providerData.validateUrl.value, s.accessToken));
        profile.Success? && profile.value.id != "" ==>
          r == Success(Identifier(profile.value.id, providerData.loginUrl.value.host))
    {
      if s.accessToken == "" then Failure(MissingAccessToken)
      else
        match requestJson(ProfileRequest(providerData.validateUrl.value, s.accessToken))
        case Failure(e) => Failure(e)
        case Success(profile) =>
          if profile.id == "" then Failure(NoId)
          else Success(Identifier(profile.id, providerData.loginUrl.value.host))
    }

    /** Without an access token no profile request is made: the result does not depend on
        what the profile endpoint would answer. */
    lemma NoProfileRequestWithoutToken(s: SessionState, requestJson: Request -> Result<Profile, Error>,
                                       otherRequestJson: Request -> Result<Profile, Error>)
      requires s.accessToken == ""
      ensures GetEmailAddress(s, requestJson) == GetEmailAddress(s, otherRequestJson) == Failure(MissingAccessToken)
    {
    }

    /** The errors of the profile lookup: a failed request or decode is returned as it is,
        and an empty `ocs.data.id` is "no id". */
    lemma ProfileErrors(s: SessionState, requestJson: Request -> Result<Profile, Error>)
      requires s.accessToken != "" && providerData.validateUrl.Some?
      ensures var profile := requestJson(ProfileRequest(providerData.validateUrl.value, s.accessToken));
        && (profile.Failure? ==> GetEmailAddress(s, requestJson) == Failure(profile.error))
        && (profile.Success? && profile.value.id == "" ==> GetEmailAddress(s, requestJson) == Failure(NoId))
    {
    }
  }
}
