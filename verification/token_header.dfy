/**
 * How the facade derives its `Authorization` header: `_create_auth_header`,
 * `_get_auth_headers`, and the two variants of `_get_token_header`, which
 * fall back to the raw API key whenever the session lookup fails or finds
 * no session. The session lookup is an oracle: the model is given what
 * `auth.get_session()` produced.
 */
module TokenHeader {
  import opened Wrappers
  import opened PyValues

  const AuthorizationHeader: string := "Authorization"
  const ApiKeyHeader: string := "apiKey"
  const BearerPrefix: string := "Bearer "

  /** `_create_auth_header(token)`. */
  function CreateAuthHeader(token: string): Headers {
    map[AuthorizationHeader := BearerPrefix + token]
  }

  /** The token a header mapping carries when it is exactly one `Authorization: Bearer <token>` entry. */
  function BearerToken(h: Headers): Option<string> {
    if h.Keys == {AuthorizationHeader} && |h[AuthorizationHeader]| >= |BearerPrefix|
       && h[AuthorizationHeader][..|BearerPrefix|] == BearerPrefix
    then Some(h[AuthorizationHeader][|BearerPrefix|..])
    else None
  }

  /** The header built for a token carries exactly that token. */
  lemma BearerTokenOfCreated(token: string)
    ensures BearerToken(CreateAuthHeader(token)) == Some(token)
  {
    var v := BearerPrefix + token;
    assert v[..|BearerPrefix|] == BearerPrefix && v[|BearerPrefix|..] == token;
  }

  /** A mapping that carries a token is the header built for it. */
  lemma CreatedOfBearerToken(h: Headers)
    requires BearerToken(h).Some?
    ensures CreateAuthHeader(BearerToken(h).value) == h
  {
    var v := h[AuthorizationHeader];
    assert BearerPrefix + v[|BearerPrefix|..] == v;
  }

  /** `_get_auth_headers()`: the api key under `apiKey` and as a bearer token. */
  function GetAuthHeaders(key: string): Headers {
    map[ApiKeyHeader := key, AuthorizationHeader := BearerPrefix + key]
  }

  /**
   * The headers the storage and functions clients get: `_get_auth_headers()`
   * updated with the current token header.
   */
  function ServiceHeaders(key: string, authToken: Headers): Headers {
    GetAuthHeaders(key) + authToken
  }

  /**
   * The service headers hold the api key and, as their only other entry,
   * the bearer token of the current token header.
   */
  lemma ServiceHeadersCarryToken(key: string, token: string)
    ensures var h := ServiceHeaders(key, CreateAuthHeader(token));
            h.Keys == {ApiKeyHeader, AuthorizationHeader} && h[ApiKeyHeader] == key &&
            BearerToken(h - {ApiKeyHeader}) == Some(token)
  {
    var h := ServiceHeaders(key, CreateAuthHeader(token));
    assert h - {ApiKeyHeader} == CreateAuthHeader(token);
    BearerTokenOfCreated(token);
  }

  // -------------------------------------------------------- session lookup

  /** A gotrue session; only its access token matters here. */
  datatype Session = Session(accessToken: string)

  /** What `auth.get_session()` gave back. */
  datatype SessionValue =
    | NoSession                  // None
    | SessionObject(session: Session)
    | Coroutine                  // an async client's result, not awaited

  /** What the lookup did: raised an exception, or returned a value. */
  datatype SessionLookup = Raised | Returned(value: SessionValue)

  /** `getattr(v, name)`: a session has `access_token`; anything else raises AttributeError (None). */
  function Attribute(v: SessionValue, name: string): Option<string> {
    if v.SessionObject? && name == "access_token" then Some(v.session.accessToken) else None
  }

  /**
   * The body of `_get_token_header`, reading the token from attribute
   * `field`: start from the key; if the lookup returned a truthy value, read
   * the attribute; every exception is suppressed and leaves the key.
   */
  function TokenAfterLookup(key: string, lookup: SessionLookup, field: string): string {
    match lookup
    case Raised => key
    case Returned(v) =>
      if v.NoSession? then key
      else match Attribute(v, field)
        case Some(t) => t
        case None => key
  }

  /** The access token of the session the lookup found, if it found one. */
  function FoundToken(lookup: SessionLookup): Option<string> {
    if lookup.Returned? && lookup.value.SessionObject? then Some(lookup.value.session.accessToken)
    else None
  }

  /** `APIClient._get_token_header`: the session's access token if there is one, else the raw key. */
  function GetTokenHeader(key: string, lookup: SessionLookup): (h: Headers)
    ensures BearerToken(h) == Some(FoundToken(lookup).GetOr(key))
  {
    BearerTokenOfCreated(TokenAfterLookup(key, lookup, "access_token"));
    CreateAuthHeader(TokenAfterLookup(key, lookup, "access_token"))
  }

  /**
   * `AsyncAPI._get_token_header` reads the misspelled attribute
   * `acess_token`, which no session has; the AttributeError is suppressed,
   * so the header always carries the raw key.
   */
  function AsyncGetTokenHeader(key: string, lookup: SessionLookup): (h: Headers)
    ensures BearerToken(h) == Some(key)
  {
    BearerTokenOfCreated(TokenAfterLookup(key, lookup, "acess_token"));
    CreateAuthHeader(TokenAfterLookup(key, lookup, "acess_token"))
  }

  /**
   * The two variants agree exactly when the lookup found no session whose
   * token differs from the key.
   */
  lemma TokenHeaderVariantsAgree(key: string, lookup: SessionLookup)
    ensures GetTokenHeader(key, lookup) == AsyncGetTokenHeader(key, lookup)
        <==> FoundToken(lookup).GetOr(key) == key
  {
    var h1, h2 := GetTokenHeader(key, lookup), AsyncGetTokenHeader(key, lookup);
    if h1 == h2 {
      assert BearerToken(h1) == BearerToken(h2);
    } else {
      CreatedOfBearerToken(h1);
      CreatedOfBearerToken(h2);
    }
  }

  /**
   * What a `_get_token_header` call observes, given what the auth client's
   * `get_session` yields (`oracle`): a synchronous call on an asynchronous
   * client gets an un-awaited coroutine, and awaiting a synchronous client's
   * result raises.
   */
  function ObservedLookup(awaited: bool, authIsAsync: bool, oracle: SessionLookup): SessionLookup {
    if awaited == authIsAsync then oracle
    else if awaited then Raised
    else Returned(Coroutine)
  }

  /** A synchronous call on an asynchronous auth client leaves the raw key. */
  lemma UnawaitedLookupKeepsKey(key: string, oracle: SessionLookup)
    ensures GetTokenHeader(key, ObservedLookup(false, true, oracle)) == CreateAuthHeader(key)
  {
  }
}
