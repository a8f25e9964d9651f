/**
 * The facade of supabase/client/default.py: `APIClient` and its subclass
 * `AsyncAPI`. A client validates its url and key, merges its identity
 * headers into the (shared, mutable) options, derives its endpoints, builds
 * the auth client eagerly, and then builds the database, storage and
 * functions clients lazily, each from the token header current at the time.
 * Auth events from the auth client clear those caches and re-derive the
 * token header.
 */
module Client {
  import opened Wrappers
  import opened PyValues
  import opened Services
  import opened Validation
  import opened Endpoints
  import opened TokenHeader

  const AsyncStorageRequired: string :=
    "AsyncAPI client storage must be configured to use AsyncMemoryStorage"

  /**
   * The connection options. The facade updates `headers` and `storage` in
   * place; the other settings are only read.
   */
  class ClientOptions {
    var headers: Headers
    var storage: Option<AuthStorage>
    const schema: string
    const autoRefreshToken: bool
    const persistSession: bool
    const postgrestClientTimeout: Timeout
    const storageClientTimeout: Timeout
    const flowType: FlowType
    const isAsync: bool

    constructor (
      headers: Headers, storage: Option<AuthStorage>, schema: string,
      autoRefreshToken: bool, persistSession: bool,
      postgrestClientTimeout: Timeout, storageClientTimeout: Timeout,
      flowType: FlowType, isAsync: bool)
      ensures this.headers == headers && this.storage == storage && this.schema == schema
      ensures this.autoRefreshToken == autoRefreshToken && this.persistSession == persistSession
      ensures this.postgrestClientTimeout == postgrestClientTimeout
      ensures this.storageClientTimeout == storageClientTimeout
      ensures this.flowType == flowType && this.isAsync == isAsync
    {
      this.headers := headers;
      this.storage := storage;
      this.schema := schema;
      this.autoRefreshToken := autoRefreshToken;
      this.persistSession := persistSession;
      this.postgrestClientTimeout := postgrestClientTimeout;
      this.storageClientTimeout := storageClientTimeout;
      this.flowType := flowType;
      this.isAsync := isAsync;
    }
  }

  /** Which class was instantiated: `APIClient` or `AsyncAPI`. */
  datatype ClientKind = SyncClient | AsyncClient

  /** The auth state transitions the auth client reports. */
  datatype AuthEvent =
    | PasswordRecovery | SignedIn | SignedOut | TokenRefreshed
    | UserUpdated | UserDeleted | MfaChallengeVerified

  /** The events that clear the service caches and take the token from the session. */
  predicate Invalidates(e: AuthEvent) {
    e == SignedIn || e == TokenRefreshed || e == SignedOut
  }

  /** The realtime client; never constructed, so its slot stays None. */
  datatype RealtimeClient = RealtimeClient(url: string)

  /** `AsyncAPI.__init__` refuses a configured storage that is not an `AsyncMemoryStorage`. */
  predicate StorageRefused(kind: ClientKind, storage: Option<AuthStorage>) {
    kind == AsyncClient && storage.Some? && !storage.value.AsyncMemoryStorage?
  }

  class APIClient {
    const kind: ClientKind
    const supabaseUrl: string
    const supabaseKey: string
    const options: ClientOptions
    const restUrl: string
    const realtimeUrl: string
    const authUrl: string
    const storageUrl: string
    const functionsUrl: string
    const schema: string
    const auth: GoTrueClient
    const realtime: Option<RealtimeClient>

    /** `_auth_token`: the current `Authorization` header. */
    var authToken: Headers
    /** `_postgrest`, `_storage`, `_functions`: the lazily built services. */
    var cachedPostgrest: Option<PostgrestClient>
    var cachedStorage: Option<StorageClient>
    var cachedFunctions: Option<FunctionsClient>

    /**
     * The credentials passed the gate, the endpoints are those of the base
     * url, the token header is a single bearer entry, and every cached
     * service points at its endpoint with the configured settings and mode.
     */
    ghost predicate Valid()
      reads this
    {
      && UrlMatches(supabaseUrl) && KeyAccepted(supabaseKey)
      && DeriveEndpoints(supabaseUrl) == EndpointSet(restUrl, realtimeUrl, authUrl, storageUrl, functionsUrl)
      && schema == options.schema
      && auth.args.url == authUrl && auth.Async? == options.isAsync
      && realtime == None
      && BearerToken(authToken).Some?
      && (cachedPostgrest.Some? ==>
            var p := cachedPostgrest.value;
            p.Async? == options.isAsync && p.args.url == restUrl && p.args.headers.Some? &&
            p.args.schema == Some(schema) && p.args.timeout == Some(options.postgrestClientTimeout))
      && (cachedStorage.Some? ==>
            var s := cachedStorage.value;
            s.Async? == options.isAsync && s.args.url == storageUrl && s.args.headers.Some? &&
            s.args.timeout == Some(options.storageClientTimeout))
      && (cachedFunctions.Some? ==>
            var f := cachedFunctions.value;
            f.Async? == options.isAsync && f.args.url == functionsUrl)
    }

    /** The token the current header carries. */
    ghost function CurrentToken(): string
      reads this
      requires Valid()
    {
      BearerToken(authToken).value
    }

    /** Every cached service was built with the current token header. */
    ghost predicate Coherent()
      reads this
      requires Valid()
    {
      && (cachedPostgrest.Some? ==>
            var h := cachedPostgrest.value.args.headers.value;
            AuthorizationHeader in h && h[AuthorizationHeader] == BearerPrefix + CurrentToken())
      && (cachedStorage.Some? ==>
            cachedStorage.value.args.headers == Some(ServiceHeaders(supabaseKey, authToken)))
      && (cachedFunctions.Some? ==>
            cachedFunctions.value.args.headers == ServiceHeaders(supabaseKey, authToken))
    }

    /**
     * `APIClient.__init__` once the gate has passed: merges the identity
     * headers into the options, defaults their storage to a synchronous
     * memory store, derives the endpoints, builds the auth client from the
     * options and leaves every lazy slot unset.
     */
    constructor Init(kind: ClientKind, url: string, key: string, options: ClientOptions)
      requires UrlMatches(url) && KeyAccepted(key)
      modifies options
      ensures Valid() && Coherent()
      ensures this.kind == kind && supabaseUrl == url && supabaseKey == key && this.options == options
      ensures CurrentToken() == key && authToken == CreateAuthHeader(key)
      ensures options.headers == old(options.headers) + GetAuthHeaders(key)
      ensures options.storage == Some(old(options.storage).GetOr(SyncMemoryStorage(map[])))
      ensures auth == AuthCreate(authUrl, Some(options.headers), None, Some(options.autoRefreshToken),
                                 options.persistSession, options.storage, None, options.flowType,
                                 ModeKwargs(options.isAsync))
      ensures realtime == None && cachedPostgrest == None && cachedStorage == None && cachedFunctions == None
    {
      this.kind := kind;
      supabaseUrl := url;
      supabaseKey := key;
      authToken := CreateAuthHeader(key);
      options.headers := options.headers + GetAuthHeaders(key);
      if options.storage.None? {
        options.storage := Some(SyncMemoryStorage(map[]));
      }
      this.options := options;
      var e := DeriveEndpoints(url);
      restUrl := e.rest;
      realtimeUrl := e.realtime;
      authUrl := e.auth;
      storageUrl := e.storage;
      functionsUrl := e.functions;
      schema := options.schema;
      auth := AuthCreate(e.auth, Some(options.headers), None, Some(options.autoRefreshToken),
                         options.persistSession, options.storage, None, options.flowType,
                         ModeKwargs(options.isAsync));
      realtime := None;
      cachedPostgrest := None;
      cachedStorage := None;
      cachedFunctions := None;
      new;
      BearerTokenOfCreated(key);
    }

    /**
     * Instantiating `APIClient` or `AsyncAPI`. `AsyncAPI` first defaults the
     * options' storage to an asynchronous memory store and refuses any other
     * kind of store; only then does the gate run, so a refused url or key
     * can leave the options with that new store. The headers are touched
     * only once the gate has passed.
     */
    static method New(kind: ClientKind, url: PyValue, key: PyValue, options: ClientOptions)
      returns (r: Result<APIClient, ConfigurationError>)
      modifies options
      ensures r.Success? <==> !StorageRefused(kind, old(options.storage)) && Validate(url, key).Success?
      ensures StorageRefused(kind, old(options.storage)) ==>
                r == Failure(ConfigurationError(AsyncStorageRequired))
      ensures !StorageRefused(kind, old(options.storage)) && Validate(url, key).Failure? ==>
                r == Failure(Validate(url, key).error)
      ensures r.Failure? ==> options.headers == old(options.headers)
      ensures r.Failure? ==>
                options.storage == (if kind == AsyncClient then Some(old(options.storage).GetOr(AsyncMemoryStorage(map[])))
                                    else old(options.storage))
      ensures r.Success? ==>
                var c := r.value;
                && fresh(c) && c.Valid() && c.Coherent()
                && c.kind == kind && c.options == options
                && c.supabaseUrl == url.s && c.supabaseKey == key.s
                && c.authToken == CreateAuthHeader(key.s)
                && c.cachedPostgrest == None && c.cachedStorage == None && c.cachedFunctions == None
                && options.headers == old(options.headers) + GetAuthHeaders(key.s)
                && options.storage == Some(old(options.storage).GetOr(FreshMemoryStorage(kind == AsyncClient)))
                && c.auth == AuthCreate(c.authUrl, Some(options.headers), None, Some(options.autoRefreshToken),
                                        options.persistSession, options.storage, None, options.flowType,
                                        ModeKwargs(options.isAsync))
                && c.auth.args.storage == Some(FreshMemoryStorage(options.isAsync))
    {
      if kind == AsyncClient {
        if options.storage.None? {
          options.storage := Some(AsyncMemoryStorage(map[]));
        }
        if !options.storage.value.AsyncMemoryStorage? {
          return Failure(ConfigurationError(AsyncStorageRequired));
        }
      }
      var v := Validate(url, key);
      if v.Failure? {
        return Failure(v.error);
      }
      var c := new APIClient.Init(kind, v.value.url, v.value.key, options);
      r := Success(c);
    }

    /**
     * `APIClient.create` / `AsyncAPI.create`: construct, then replace the
     * token header with the one derived from the auth client's session.
     * `oracle` is what the auth client's `get_session` yields; what the
     * facade observes also depends on whether it awaits the call and on the
     * auth client's mode.
     */
    static method Create(
      kind: ClientKind, url: PyValue, key: PyValue, options: ClientOptions, oracle: SessionLookup)
      returns (r: Result<APIClient, ConfigurationError>)
      modifies options
      ensures r.Success? <==> !StorageRefused(kind, old(options.storage)) && Validate(url, key).Success?
      ensures StorageRefused(kind, old(options.storage)) ==>
                r == Failure(ConfigurationError(AsyncStorageRequired))
      ensures !StorageRefused(kind, old(options.storage)) && Validate(url, key).Failure? ==>
                r == Failure(Validate(url, key).error)
      ensures r.Failure? ==> options.headers == old(options.headers)
      ensures r.Failure? ==>
                options.storage == (if kind == AsyncClient then Some(old(options.storage).GetOr(AsyncMemoryStorage(map[])))
                                    else old(options.storage))
      ensures r.Success? ==>
                var c := r.value;
                && fresh(c) && c.Valid() && c.Coherent()
                && c.kind == kind && c.options == options
                && c.supabaseUrl == url.s && c.supabaseKey == key.s
                && c.cachedPostgrest == None && c.cachedStorage == None && c.cachedFunctions == None
                && options.headers == old(options.headers) + GetAuthHeaders(key.s)
                && options.storage == Some(old(options.storage).GetOr(FreshMemoryStorage(kind == AsyncClient)))
                && c.auth == AuthCreate(c.authUrl, Some(options.headers), None, Some(options.autoRefreshToken),
                                        options.persistSession, options.storage, None, options.flowType,
                                        ModeKwargs(options.isAsync))
                && c.CurrentToken() ==
                     if kind == SyncClient && !options.isAsync then FoundToken(oracle).GetOr(key.s)
                     else key.s
    {
      r := New(kind, url, key, options);
      if r.Success? {
        var c := r.value;
        var h := if kind == SyncClient then GetTokenHeader(c.supabaseKey, ObservedLookup(false, c.auth.Async?, oracle))
                 else AsyncGetTokenHeader(c.supabaseKey, ObservedLookup(true, c.auth.Async?, oracle));
        c.SetAuthToken(h);
      }
    }

    /** Replaces the token header of a client whose service slots are all unset. */
    method SetAuthToken(h: Headers)
      requires Valid() && BearerToken(h).Some?
      requires cachedPostgrest == None && cachedStorage == None && cachedFunctions == None
      modifies this`authToken
      ensures Valid() && Coherent() && authToken == h && CurrentToken() == BearerToken(h).value
      ensures cachedPostgrest == None && cachedStorage == None && cachedFunctions == None
      ensures unchanged(options)
    {
      authToken := h;
    }

    /**
     * The `postgrest` property: on first access, merges the token header
     * into the shared option headers and builds the database client with
     * them; afterwards returns the cached client.
     */
    method Postgrest() returns (p: PostgrestClient)
      requires Valid()
      modifies this`cachedPostgrest, options`headers
      ensures Valid() && cachedPostgrest == Some(p)
      ensures old(Coherent()) ==> Coherent()
      ensures old(cachedPostgrest).Some? ==>
                p == old(cachedPostgrest).value && options.headers == old(options.headers)
      ensures old(cachedPostgrest).None? ==>
                && options.headers == old(options.headers) + authToken
                && p == PgRESTCreate(restUrl, Some(options.headers), Some(options.schema),
                                     Some(options.postgrestClientTimeout), ModeKwargs(options.isAsync))
      ensures var h := p.args.headers.value;
              old(cachedPostgrest).None? ==> AuthorizationHeader in h && h[AuthorizationHeader] == BearerPrefix + CurrentToken()
    {
      if cachedPostgrest.None? {
        options.headers := options.headers + authToken;
        cachedPostgrest := Some(PgRESTCreate(restUrl, Some(options.headers), Some(options.schema),
                                             Some(options.postgrestClientTimeout), ModeKwargs(options.isAsync)));
        CreatedOfBearerToken(authToken);
      }
      p := cachedPostgrest.value;
    }

    /**
     * The `storage` property: on first access, builds the storage client
     * with the identity headers updated by the token header.
     */
    method Storage() returns (s: StorageClient)
      requires Valid()
      modifies this`cachedStorage
      ensures Valid() && cachedStorage == Some(s)
      ensures old(Coherent()) ==> Coherent()
      ensures old(cachedStorage).Some? ==> s == old(cachedStorage).value
      ensures old(cachedStorage).None? ==>
                s == StorageCreate(storageUrl, Some(ServiceHeaders(supabaseKey, authToken)),
                                   Some(options.storageClientTimeout), ModeKwargs(options.isAsync))
    {
      if cachedStorage.None? {
        var headers := GetAuthHeaders(supabaseKey);
        headers := headers + authToken;
        cachedStorage := Some(StorageCreate(storageUrl, Some(headers),
                                            Some(options.storageClientTimeout), ModeKwargs(options.isAsync)));
      }
      s := cachedStorage.value;
    }

    /**
     * The `functions` property: on first access, builds the functions
     * client with the identity headers updated by the token header.
     */
    method Functions() returns (f: FunctionsClient)
      requires Valid()
      modifies this`cachedFunctions
      ensures Valid() && cachedFunctions == Some(f)
      ensures old(Coherent()) ==> Coherent()
      ensures old(cachedFunctions).Some? ==> f == old(cachedFunctions).value
      ensures old(cachedFunctions).None? ==>
                f == FunctionsCreate(functionsUrl, ServiceHeaders(supabaseKey, authToken),
                                     ModeKwargs(options.isAsync))
    {
      if cachedFunctions.None? {
        var headers := GetAuthHeaders(supabaseKey);
        headers := headers + authToken;
        cachedFunctions := Some(FunctionsCreate(functionsUrl, headers, ModeKwargs(options.isAsync)));
      }
      f := cachedFunctions.value;
    }

    /**
     * `_listen_to_auth_events`: a sign-in, refresh or sign-out clears the
     * three caches and takes the token from the session (the key when there
     * is none); any other event keeps the caches and resets the token to
     * the key.
     */
    method ListenToAuthEvents(event: AuthEvent, session: Option<Session>)
      requires Valid()
      modifies this`authToken, this`cachedPostgrest, this`cachedStorage, this`cachedFunctions
      ensures Valid()
      ensures Invalidates(event) ==>
                && cachedPostgrest == None && cachedStorage == None && cachedFunctions == None
                && CurrentToken() == (if session.Some? then session.value.accessToken else supabaseKey)
                && Coherent()
      ensures !Invalidates(event) ==>
                && cachedPostgrest == old(cachedPostgrest) && cachedStorage == old(cachedStorage)
                && cachedFunctions == old(cachedFunctions)
                && CurrentToken() == supabaseKey
      ensures authToken == CreateAuthHeader(CurrentToken())
    {
      var accessToken := supabaseKey;
      if Invalidates(event) {
        cachedPostgrest := None;
        cachedStorage := None;
        cachedFunctions := None;
        accessToken := if session.Some? then session.value.accessToken else supabaseKey;
      }
      authToken := CreateAuthHeader(accessToken);
      BearerTokenOfCreated(accessToken);
    }
  }

  // ------------------------------------------------------------ scenarios

  /**
   * An event outside the three invalidating ones, after a sign-in and a
   * storage access, resets the token header to the key but keeps the
   * storage client that was built with the session's token: the cache no
   * longer agrees with the header.
   */
  method IgnoredEventKeepsSessionStorage(c: APIClient, s: Session, e: AuthEvent) returns (kept: StorageClient)
    requires c.Valid() && !Invalidates(e) && s.accessToken != c.supabaseKey
    modifies c`authToken, c`cachedPostgrest, c`cachedStorage, c`cachedFunctions
    ensures c.Valid() && !c.Coherent()
    ensures c.cachedStorage == Some(kept) && c.CurrentToken() == c.supabaseKey
    ensures kept.args.headers == Some(ServiceHeaders(c.supabaseKey, CreateAuthHeader(s.accessToken)))
  {
    c.ListenToAuthEvents(SignedIn, Some(s));
    kept := c.Storage();
    c.ListenToAuthEvents(e, Some(s));
    ServiceHeadersCarryToken(c.supabaseKey, s.accessToken);
    ServiceHeadersCarryToken(c.supabaseKey, c.supabaseKey);
  }

  /**
   * Two clients built over one options object (as every client built with
   * the default `ClientOptions()` argument is) share its headers: the
   * first client's database client is built with its own bearer token but
   * with the second client's `apiKey`.
   */
  method SharedOptionsMixKeys(url: string, first: string, second: string, options: ClientOptions)
    returns (p: PostgrestClient)
    requires UrlMatches(url) && KeyAccepted(first) && KeyAccepted(second)
    modifies options
    ensures p.args.headers.Some?
    ensures var h := p.args.headers.value;
            ApiKeyHeader in h && AuthorizationHeader in h &&
            h[ApiKeyHeader] == second && h[AuthorizationHeader] == BearerPrefix + first
  {
    var a := BuildTwoOverOneOptions(url, first, second, options);
    var merged := options.headers;
    p := a.Postgrest();
    assert options.headers == merged + CreateAuthHeader(first);
  }

  /**
   * Builds a client over `options`, then a second one over the same
   * options, and returns the first: the shared headers now carry the
   * second client's `apiKey`.
   */
  method BuildTwoOverOneOptions(url: string, first: string, second: string, options: ClientOptions)
    returns (a: APIClient)
    requires UrlMatches(url) && KeyAccepted(first) && KeyAccepted(second)
    modifies options
    ensures fresh(a) && a.Valid() && a.options == options && a.cachedPostgrest == None
    ensures a.authToken == CreateAuthHeader(first)
    ensures ApiKeyHeader in options.headers && options.headers[ApiKeyHeader] == second
  {
    a := new APIClient.Init(SyncClient, url, first, options);
    var b := new APIClient.Init(SyncClient, url, second, options);
  }
}
