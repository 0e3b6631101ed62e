# Owncloud OAuth2 provider — a Dafny model

This project models the Owncloud provider of the oauth2_proxy authenticating reverse proxy
(`providers/owncloud.go`). The provider does three things:

- **Configuration defaulting** (`NewOwncloudProvider`). Every URL of the shared `ProviderData`
  that is nil or renders as the empty string gets a placeholder on `http://localhost`, and the
  provider name becomes `Owncloud`. As the code is written, the test on `ValidateURL` assigns
  `RedeemURL` instead.
- **Token redemption** (`Redeem`). This is the access token request of section 4.1.3 of RFC 6749.
  The client credentials go both in the form body and in a Basic header (section 2.3.1 of RFC 6749,
  section 2 of RFC 7617). The response is classified in a fixed order: any status other than 200
  is an error; a body that decodes as JSON is trusted; otherwise the body is read as a query
  string whose `access_token` must be non-empty.
- **Identity resolution** (`GetEmailAddress`). The access token is sent as a Bearer header
  (section 2.1 of RFC 6750) to the profile endpoint with `?format=json`. The identifier is
  `ocs.data.id + "@" + LoginURL.Host`.

Modules:

- `Wrappers`: `Option` and `Result`.
- `Bytes`: bytes, and the UTF-8 encoding Go uses for `[]byte(string)`.
- `Base64`: the standard encoding of section 4 of RFC 4648, with a decoder as its inverse.
- `Urls`: the URL record, its string form, and `url.Values`.
- `Owncloud`: the provider itself.

`ProviderData` is a class whose fields `NewOwncloudProvider` updates in place. `Redeem` is a
method that builds `url.Values` by successive `Add` calls. The response classification, the
headers and the identifier are functions.

The network and the library decoders are parameters of the operations:

- `transport` stands for `http.NewRequest`, `http.DefaultClient.Do` and `ioutil.ReadAll`.
- `decodeJson` stands for `json.Unmarshal` into `{access_token}`.
- `parseQuery` stands for `url.ParseQuery`.
- `requestJson` stands for `api.RequestJson` into the profile shape.

Each returns a value or an error. `Redeem` also returns the request it hands to the transport,
or None when it makes no request.

## Model

| member | source | states |
|---|---|---|
| `Bytes.EncodeChar` | providers/owncloud.go:68 | Each character of the credentials becomes its shortest UTF-8 form of one to four bytes. The leading byte announces the length, the rest are continuation bytes, and the payload bits read back give the code point. ASCII maps to itself. |
| `Bytes.Utf8` | providers/owncloud.go:68 | `[]byte(s)` is each character's UTF-8 form, in order, and takes between one and four bytes per character. |
| `Bytes.Utf8Ascii` | providers/owncloud.go:68 | An ASCII string encodes to exactly its code points, one byte per character. |
| `Bytes.Utf8Append` | providers/owncloud.go:68 | The bytes of `ClientID + ":" + ClientSecret` are the bytes of each part, in order. |
| `Base64.Encode` | providers/owncloud.go:68 | `EncodeToString` output has length 4·⌈n/3⌉, uses only alphabet symbols and `=`, and pads only in the last two positions. With `DecodeEncode` and `EncodeDecode` it is the unique canonical encoding. |
| `Base64.DecodeEncode` | providers/owncloud.go:68 | Decoding the standard base64 of any byte string gives that byte string back. |
| `Base64.EncodeDecode` | providers/owncloud.go:68 | Every string that decodes is the encoding of what it decodes to, so no byte string has a second encoding. |
| `Urls.Url.String` | providers/owncloud.go:22 | A URL renders as the empty string exactly when all its parts are empty. This is the test `u.String() == ""` the provider applies to every URL. |
| `Urls.Values.Add` | providers/owncloud.go:52-60 | `params.Add` appends the pair after those already added. |
| `Urls.Get` | providers/owncloud.go:104 | `v.Get(key)` is "" when the key is absent, and any non-empty result is a value added under that key. |
| `Urls.GetFirst` | providers/owncloud.go:104 | `v.Get(key)` is the value of the first pair with that key. |
| `Owncloud.Unset` | providers/owncloud.go:22 | The test that a URL is nil or renders as "" (also at lines 29, 36 and 58) holds exactly when the URL is nil or all of its parts are empty. |
| `Owncloud.Resolve` | providers/owncloud.go:20-42 | The provider name becomes "Owncloud". An unset LoginURL or RedeemURL gets its localhost placeholder and a configured one is kept. An unset ValidateURL makes RedeemURL `/ocs/v1.php/cloud/user`, overriding a configured one. ValidateURL and the credentials never change. |
| `Owncloud.ResolveSetsLoginAndRedeem` | providers/owncloud.go:22-41 | After defaulting, LoginURL and RedeemURL are always set and non-empty. |
| `Owncloud.ResolveKeepsRedeemIff` | providers/owncloud.go:29-42 | A configured RedeemURL survives if and only if ValidateURL is configured too, or it already equals the profile placeholder. |
| `Owncloud.ResolveLeavesProfileUnset` | providers/owncloud.go:36-42 | An unset ValidateURL is still unset after defaulting; an all-nil configuration keeps ValidateURL nil. |
| `Owncloud.ResolveIdempotent` | providers/owncloud.go:20-42 | Defaulting an already defaulted configuration changes nothing. |
| `Owncloud.ResolveIntended` | providers/owncloud.go:36-42 | The corrected defaulting fills each unset URL with its localhost placeholder: the profile endpoint for ValidateURL, the token endpoint for RedeemURL. It keeps configured URLs, so all three end up set, and agrees with the code on everything else. |
| `Owncloud.NewOwncloudProvider` | providers/owncloud.go:20-44 | Updates the shared `ProviderData` in place to `Resolve` of its old configuration and returns a new provider that wraps that same object. |
| `Owncloud.RedeemParams` | providers/owncloud.go:52-60 | The form keys are exactly `redirect_uri, client_id, client_secret, code, grant_type` in that order. `resource` follows only when a protected resource with a non-empty string form is configured. |
| `Owncloud.RedeemParamsValues` | providers/owncloud.go:53-57 | Reading the form back gives the redirect URL, the client id, the client secret, the code and `authorization_code`. |
| `Owncloud.RedeemParamsResource` | providers/owncloud.go:58-60 | `resource` is present if and only if the protected resource is set and non-empty, and then it carries that resource's string form. |
| `Owncloud.BasicAuthorization` | providers/owncloud.go:68 | The Basic header value decodes (scheme `Basic `, then base64) to the UTF-8 bytes of the client id, a colon, and the client secret. |
| `Owncloud.BasicAuthorizationDecodes` | providers/owncloud.go:68 | The same round trip, stated on the expression `"Basic " + base64([]byte(id + ":" + secret))`. |
| `Owncloud.TokenRequest` | providers/owncloud.go:52-68 | The token request is a POST to the RedeemURL string with a form content type. Its Basic header is the client's and decodes to the client credentials. Its form is exactly the redemption parameters in the order they are added. |
| `Owncloud.ClassifyTokenResponse` | providers/owncloud.go:82-109 | A session is produced only on status 200. A session with an empty token can only come from a body that decodes as JSON with an empty `access_token`. |
| `Owncloud.Non200IsUpstreamError` | providers/owncloud.go:82-85 | Any status other than 200 is an error carrying the status, the RedeemURL string and the body, whatever the decoders would say. |
| `Owncloud.JsonIsTrusted` | providers/owncloud.go:87-97 | On 200, a body that decodes as JSON gives a session with exactly the decoded token, even an empty one, and the query-string parser is not consulted. |
| `Owncloud.FormFallback` | providers/owncloud.go:99-109 | When JSON decoding fails: a parse error is returned as it is. A non-empty `access_token` gives a session with exactly that token. Otherwise the result is "no access token found" carrying the body. |
| `Owncloud.OwncloudHeader` | providers/owncloud.go:112-116 | The profile header has only `Authorization`, and its Bearer credential is exactly the access token. |
| `Owncloud.ProfileRequest` | providers/owncloud.go:122-126 | The profile request is a GET of the ValidateURL string followed by `?format=json`, whose only header carries the access token as a Bearer credential. |
| `Owncloud.Identifier` | providers/owncloud.go:150 | The identifier is the account id, then `@`, then the login host, with nothing else. |
| `Owncloud.IdentifierInjective` | providers/owncloud.go:150 | For a fixed login host, distinct account ids give distinct identifiers. |
| `Owncloud.OwncloudProvider.Redeem` | providers/owncloud.go:46-110 | An empty code fails with "missing code" and makes no request. Otherwise it hands exactly the token request to the transport, passes a transport error on, and classifies the response. |
| `Owncloud.OwncloudProvider.GetEmailAddress` | providers/owncloud.go:118-151 | An empty token fails with "missing access token". A non-empty token whose profile decodes with a non-empty id gives exactly `id + "@" + LoginURL.Host`. Conversely, a success means such a profile was obtained. |
| `Owncloud.OwncloudProvider.NoProfileRequestWithoutToken` | providers/owncloud.go:119-121 | With an empty token the result does not depend on the profile endpoint at all. |
| `Owncloud.OwncloudProvider.ProfileErrors` | providers/owncloud.go:143-149 | A failed profile request or decode is returned as it is; an empty `ocs.data.id` gives "no id". |

## Left out

- The HTTP transport and body reading (`http.NewRequest`, `http.DefaultClient.Do`, `ioutil.ReadAll`, `api.RequestJson`) are network I/O. They are parameters. A request-construction failure of `http.NewRequest` is one of the transport's errors.
- The internals of `json.Unmarshal`, `url.ParseQuery` and `api.RequestJson`'s decoding are library code. They are parameters that return a value or an error.
- `url.Values.Encode` is not modelled. It sorts the keys and percent-escapes them. The model's request carries the pairs in the order they were added; the body actually sent lists them sorted by key.
- `Urls.Url.String`: a simplified rendering without percent-escaping, user information or opaque URLs. The rendered string flows into the request URLs, the `resource` value and the upstream error, but the proofs rely only on its emptiness property.
- Error texts produced with `fmt` (including the `%q` quoting of the URL) are structured `Error` values carrying the same data.
- `http.Header` key canonicalisation and multi-valued headers are not modelled. Every header the provider sets has one value under an already canonical name.
- Go strings are modelled as Unicode strings. Byte strings that are not valid UTF-8 are not modelled.
- Nil-pointer dereferences are preconditions, each only on the branch that dereferences. They are `RedeemURL` in `Redeem`, and `ValidateURL` and `LoginURL` in `GetEmailAddress`.
- `Owncloud.OwncloudProvider.GetEmailAddress` is a function, so "no request is made" is stated as independence from the profile endpoint (`NoProfileRequestWithoutToken`), not as an absent call.
- The profile's `meta` fields and its `display-name` and `email` fields are decoded but never used. `SessionState` fields other than the access token are not used here either.
- `ProviderData` fields that the provider does not read (scope, profile URL and others) are not part of this model.
- Concurrent use, timeouts and retries are not implemented by the provider.
- `Base64.Decode` is the inverse used to state the header's content. It is not Go's decoder: like Go's strict mode, it rejects non-zero pad bits (section 3.5 of RFC 4648). `Base64.EncodeDecode` proves that it accepts only canonical encodings.
- The design intent is that every unset URL, the profile endpoint included, gets a localhost placeholder. The code never assigns `ValidateURL`, and the model follows the code (see Findings).

## Findings

| source | as written | input that shows it | evidently intended | confidence | as-written member | corrected member |
|---|---|---|---|---|---|---|
| providers/owncloud.go:36-42 | When `ValidateURL` is unset, the branch assigns `RedeemURL = http://localhost/ocs/v1.php/cloud/user`. `ValidateURL` stays unset and a configured `RedeemURL` is overwritten. When `ValidateURL` is nil, `GetEmailAddress` later dereferences it at line 122 for any non-empty token; when it is non-nil but renders as "", the profile request goes to the relative URL `?format=json`. | `ProviderData` with every URL nil and ClientID "id", ClientSecret "secret" | assign `ValidateURL`, leaving `RedeemURL` as configured or defaulted | high (not executed) | `Owncloud.ResolveLeavesProfileUnset` | `Owncloud.ResolveIntended` |

`NewOwncloudProvider` follows the code as written, because that is the behaviour the system has.
`Owncloud.ResolveIntended` is the corrected defaulting. Its contract proves that afterwards every
endpoint `GetEmailAddress` dereferences is set.
