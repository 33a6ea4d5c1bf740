/**
 The token-endpoint requests of `authorize` and `authorize_user` in
 src/index.js.  OAuth 2.0 (RFC 6749) names the three grants used: the
 client-credentials grant of section 4.4, the authorization-code exchange of
 section 4.1.3 and the refresh of section 6.  A request body is the list of
 form fields `querystring.stringify` renders, in order.
 */
module Auth {
  import opened Common
  import opened Cache

  const RedirectUri := "http://localhost:8008/callback"

  /** The cache key the refresh token is kept under. */
  const RefreshKey := "refresh_token"

  /** A form-encoded request body, field by field. */
  type Form = seq<(string, string)>

  /** The three grants, each carrying only what its exchange needs. */
  datatype Grant = ClientCredentials | AuthorizationCode(code: string) | RefreshToken(refreshToken: string)

  /** The request body of a grant; both user grants carry the fixed redirect URI. */
  function Encode(g: Grant): Form
  {
    match g
    case ClientCredentials => [("grant_type", "client_credentials")]
    case AuthorizationCode(code) => [("grant_type", "authorization_code"), ("code", code), ("redirect_uri", RedirectUri)]
    case RefreshToken(token) => [("grant_type", "refresh_token"), ("refresh_token", token), ("redirect_uri", RedirectUri)]
  }

  /** The value of the first field named `key`, if any. */
  function Field(f: Form, key: string): Option<string>
  {
    if f == [] then None
    else if f[0].0 == key then Some(f[0].1)
    else Field(f[1..], key)
  }

  /** The grant a token endpoint reads from a request body. */
  function Decode(f: Form): Option<Grant>
  {
    match Field(f, "grant_type")
    case Some("client_credentials") => Some(ClientCredentials)
    case Some("authorization_code") =>
      (match Field(f, "code") case Some(c) => Some(AuthorizationCode(c)) case None => None)
    case Some("refresh_token") =>
      (match Field(f, "refresh_token") case Some(t) => Some(RefreshToken(t)) case None => None)
    case _ => None
  }

  /** Every grant's request body is read back as that grant. */
  lemma DecodeEncode(g: Grant)
    ensures Decode(Encode(g)) == Some(g)
  {
    var f := Encode(g);
    assert Field(f, "grant_type") == Some(f[0].1);
    match g
    case ClientCredentials =>
    case AuthorizationCode(code) =>
      assert "grant_type" != "code";
      assert Field(f[1..], "code") == Some(code);
    case RefreshToken(token) =>
      assert "grant_type" != "refresh_token";
      assert Field(f[1..], "refresh_token") == Some(token);
  }

  /**
   `querystring.stringify`'s rendering of what `readCache` returned: the
   string itself, `""` for `undefined`, `"false"` for `false`.
   */
  function Stringify(v: CacheRead): string
  {
    match v
    case Value(s) => s
    case Undefined => ""
    case False => "false"
  }

  /**
   The body `authorize_user` assembles by hand:
   `grant_type: code ? "authorization_code" : "refresh_token"`, then
   `...(code ? { code } : { refresh_token })`, then `redirect_uri`.
   */
  function UserForm(cached: CacheRead, code: Option<string>): Form
  {
    [("grant_type", if Truthy(code) then "authorization_code" else "refresh_token"),
     if Truthy(code) then ("code", code.value) else ("refresh_token", Stringify(cached)),
     ("redirect_uri", RedirectUri)]
  }

  /** `authorize_user` opens the browser for consent only without a truthy cached refresh token. */
  predicate NeedsConsent(cached: CacheRead)
  {
    !TruthyRead(cached)
  }

  /** The code `authorize_user` holds when it posts: the browser's after consent, `null` otherwise. */
  function CodeUsed(cached: CacheRead, browserCode: Option<string>): Option<string>
  {
    if NeedsConsent(cached) then browserCode else None
  }

  /**
   The grant `authorize_user` sends.  With a truthy cached refresh token it
   refreshes with that token; otherwise it exchanges the browser's code, and
   when consent yields no code it falls back to a refresh grant carrying the
   stringified cache value.
   */
  function UserGrant(cached: CacheRead, browserCode: Option<string>): (g: Grant)
    ensures TruthyRead(cached) ==> g == RefreshToken(cached.s)
    ensures !TruthyRead(cached) && Truthy(browserCode) ==> g == AuthorizationCode(browserCode.value)
    ensures !TruthyRead(cached) && !Truthy(browserCode) ==> g == RefreshToken(Stringify(cached))
    ensures g != ClientCredentials
  {
    var code := CodeUsed(cached, browserCode);
    if Truthy(code) then AuthorizationCode(code.value) else RefreshToken(Stringify(cached))
  }

  /** The hand-assembled body is exactly the encoding of the grant chosen. */
  lemma UserFormIsGrant(cached: CacheRead, browserCode: Option<string>)
    ensures UserForm(cached, CodeUsed(cached, browserCode)) == Encode(UserGrant(cached, browserCode))
    ensures Decode(UserForm(cached, CodeUsed(cached, browserCode))) == Some(UserGrant(cached, browserCode))
  {
    DecodeEncode(UserGrant(cached, browserCode));
  }

  /** What the token endpoint answers: the tokens, or an error (the `catch` path). */
  datatype TokenResponse = Granted(accessToken: string, refreshToken: Option<string>) | Rejected
}
