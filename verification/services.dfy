/**
 * The variant-selecting factories of supabase/client/services.py. Each
 * collaborator client (auth, functions, database, storage) comes in a
 * synchronous and an asynchronous variant; a factory reads the `is_async`
 * keyword and builds one of the two with the arguments it was given. The
 * collaborators themselves are opaque: a constructed client is modelled by
 * its variant tag and the arguments it was constructed with.
 */
module Services {
  import opened Wrappers
  import opened PyValues

  /** A collaborator client of either execution mode, recording its construction arguments. */
  datatype Variant<A> = Sync(args: A) | Async(args: A)

  /** A timeout value (a number or an `httpx.Timeout`), passed through untouched. */
  datatype Timeout = Timeout(id: nat)

  /** An HTTP client object handed to the auth client, passed through untouched. */
  datatype HttpClient = HttpClient(id: nat)

  /** The authentication flow the auth client runs. */
  datatype FlowType = Implicit | Pkce

  /** The persistence backend of the auth client. */
  datatype AuthStorage =
    | SyncMemoryStorage(items: map<string, string>)
    | AsyncMemoryStorage(items: map<string, string>)
    | CustomStorage(id: nat)

  /** A newly constructed in-memory store of the given mode: it holds no items. */
  function FreshMemoryStorage(isAsync: bool): (s: AuthStorage)
    ensures s.AsyncMemoryStorage? <==> isAsync
    ensures !s.CustomStorage? && s.items == map[]
  {
    if isAsync then AsyncMemoryStorage(map[]) else SyncMemoryStorage(map[])
  }

  // ---------------------------------------------------------------- Auth

  /** The keyword arguments a `SyncGoTrueClient` or `AsyncGoTrueClient` is built with. */
  datatype GoTrueArgs = GoTrueArgs(
    url: string,
    headers: Headers,
    storageKey: Option<string>,
    autoRefreshToken: Option<bool>,
    persistSession: bool,
    storage: Option<AuthStorage>,
    httpClient: Option<HttpClient>,
    flowType: FlowType)

  type GoTrueClient = Variant<GoTrueArgs>

  /** `headers or {}` for an optional header dict. */
  function HeadersOrEmpty(headers: Option<Headers>): Headers {
    if headers.Some? && headers.value != map[] then headers.value else map[]
  }

  /**
   * `Auth.create`: builds the argument dict, then overwrites its storage entry
   * with a fresh memory store of the selected mode, so the `storage` argument
   * never reaches the client.
   */
  function AuthCreate(
    url: string,
    headers: Option<Headers> := None,
    storageKey: Option<string> := None,
    autoRefreshToken: Option<bool> := None,
    persistSession: bool := true,
    storage: Option<AuthStorage> := None,
    httpClient: Option<HttpClient> := None,
    flowType: FlowType := Implicit,
    kwargs: Kwargs := map[]): (c: GoTrueClient)
    ensures c.Async? <==> "is_async" in kwargs && Truthy(kwargs["is_async"])
    ensures c.args.storage == Some(FreshMemoryStorage(c.Async?))
    ensures c.args.headers == headers.GetOr(map[])
    ensures c.args.url == url && c.args.storageKey == storageKey
    ensures c.args.autoRefreshToken == autoRefreshToken && c.args.persistSession == persistSession
    ensures c.args.httpClient == httpClient && c.args.flowType == flowType
  {
    var args := GoTrueArgs(url, HeadersOrEmpty(headers), storageKey, autoRefreshToken,
                           persistSession, storage, httpClient, flowType);
    if FlagSet(kwargs, "is_async") then
      Async(args.(storage := Some(AsyncMemoryStorage(map[]))))
    else
      Sync(args.(storage := Some(SyncMemoryStorage(map[]))))
  }

  /** The storage argument of `Auth.create` has no effect on the client it builds. */
  lemma AuthCreateIgnoresStorage(
    url: string, headers: Option<Headers>, storageKey: Option<string>,
    autoRefreshToken: Option<bool>, persistSession: bool,
    s1: Option<AuthStorage>, s2: Option<AuthStorage>,
    httpClient: Option<HttpClient>, flowType: FlowType, kwargs: Kwargs)
    ensures AuthCreate(url, headers, storageKey, autoRefreshToken, persistSession, s1, httpClient, flowType, kwargs)
         == AuthCreate(url, headers, storageKey, autoRefreshToken, persistSession, s2, httpClient, flowType, kwargs)
  {
  }

  /** Left to their defaults, the session is persisted, the flow is implicit and nothing else is set. */
  lemma AuthCreateDefaults(url: string)
    ensures AuthCreate(url) == Sync(GoTrueArgs(url, map[], None, None, true,
                                               Some(SyncMemoryStorage(map[])), None, Implicit))
  {
  }

  // ----------------------------------------------------------- Functions

  datatype FunctionsArgs = FunctionsArgs(url: string, headers: Headers)

  type FunctionsClient = Variant<FunctionsArgs>

  /** `Functions.create`. */
  function FunctionsCreate(url: string, headers: Headers, kwargs: Kwargs): (c: FunctionsClient)
    ensures c.Async? <==> "is_async" in kwargs && Truthy(kwargs["is_async"])
    ensures c.args == FunctionsArgs(url, headers)
  {
    if FlagSet(kwargs, "is_async") then Async(FunctionsArgs(url, headers))
    else Sync(FunctionsArgs(url, headers))
  }

  // -------------------------------------------------------------- PgREST

  datatype PostgrestArgs = PostgrestArgs(
    url: string, headers: Option<Headers>, schema: Option<string>, timeout: Option<Timeout>)

  type PostgrestClient = Variant<PostgrestArgs>

  /** `PgREST.create`; the omitted arguments default to None and are forwarded as such. */
  function PgRESTCreate(
    url: string,
    headers: Option<Headers> := None,
    schema: Option<string> := None,
    timeout: Option<Timeout> := None,
    kwargs: Kwargs := map[]): (c: PostgrestClient)
    ensures c.Async? <==> "is_async" in kwargs && Truthy(kwargs["is_async"])
    ensures c.args == PostgrestArgs(url, headers, schema, timeout)
  {
    var args := PostgrestArgs(url, headers, schema, timeout);
    if FlagSet(kwargs, "is_async") then Async(args) else Sync(args)
  }

  // ------------------------------------------------------------- Storage

  datatype StorageArgs = StorageArgs(url: string, headers: Option<Headers>, timeout: Option<Timeout>)

  type StorageClient = Variant<StorageArgs>

  /** `Storage.create`. */
  function StorageCreate(
    url: string,
    headers: Option<Headers> := None,
    timeout: Option<Timeout> := None,
    kwargs: Kwargs := map[]): (c: StorageClient)
    ensures c.Async? <==> "is_async" in kwargs && Truthy(kwargs["is_async"])
    ensures c.args == StorageArgs(url, headers, timeout)
  {
    var args := StorageArgs(url, headers, timeout);
    if FlagSet(kwargs, "is_async") then Async(args) else Sync(args)
  }

  // ----------------------------------------------------------- Duality

  /** The keyword bag the facade passes: `is_async=<mode>` and nothing else. */
  function ModeKwargs(isAsync: bool): Kwargs {
    map["is_async" := PyBool(isAsync)]
  }

  /**
   * Flipping only the mode flag changes only the variant tag: every factory
   * builds the same arguments in both modes (for auth, apart from the mode of
   * the fresh memory store it substitutes).
   */
  lemma ModeDuality(
    url: string, headers: Headers, schema: string, timeout: Timeout, isAsync: bool)
    ensures FunctionsCreate(url, headers, ModeKwargs(isAsync)).args
         == FunctionsCreate(url, headers, ModeKwargs(!isAsync)).args
    ensures PgRESTCreate(url, Some(headers), Some(schema), Some(timeout), ModeKwargs(isAsync)).args
         == PgRESTCreate(url, Some(headers), Some(schema), Some(timeout), ModeKwargs(!isAsync)).args
    ensures StorageCreate(url, Some(headers), Some(timeout), ModeKwargs(isAsync)).args
         == StorageCreate(url, Some(headers), Some(timeout), ModeKwargs(!isAsync)).args
    ensures AuthCreate(url, Some(headers), kwargs := ModeKwargs(isAsync)).args.(storage := None)
         == AuthCreate(url, Some(headers), kwargs := ModeKwargs(!isAsync)).args.(storage := None)
    ensures FunctionsCreate(url, headers, ModeKwargs(isAsync)).Async? == isAsync
    ensures PgRESTCreate(url, Some(headers), Some(schema), Some(timeout), ModeKwargs(isAsync)).Async? == isAsync
    ensures StorageCreate(url, Some(headers), Some(timeout), ModeKwargs(isAsync)).Async? == isAsync
    ensures AuthCreate(url, Some(headers), kwargs := ModeKwargs(isAsync)).Async? == isAsync
  {
  }
}
