/**
 * The older copy of the auth factory in supabase/client/auth.py. It builds
 * the same client as `Services.AuthCreate`, but reads its mode from the
 * keyword `async` instead of `is_async`, and all its arguments but `storage`
 * and `flow_type` are required.
 */
module LegacyAuth {
  import opened Wrappers
  import opened PyValues
  import opened Services

  /**
   * `Auth.create` of auth.py. The default storage is one module-level
   * `AsyncMemoryStorage()`, but it is replaced like any other storage.
   */
  function LegacyAuthCreate(
    url: string,
    headers: Option<Headers>,
    storageKey: Option<string>,
    autoRefreshToken: Option<bool>,
    persistSession: bool,
    httpClient: Option<HttpClient>,
    storage: Option<AuthStorage> := Some(AsyncMemoryStorage(map[])),
    flowType: FlowType := Implicit,
    kwargs: Kwargs := map[]): (c: GoTrueClient)
    ensures c.Async? <==> "async" in kwargs && Truthy(kwargs["async"])
    ensures c.args.storage == Some(FreshMemoryStorage(c.Async?))
    ensures c.args.headers == headers.GetOr(map[])
    ensures c.args.url == url && c.args.storageKey == storageKey
    ensures c.args.autoRefreshToken == autoRefreshToken && c.args.persistSession == persistSession
    ensures c.args.httpClient == httpClient && c.args.flowType == flowType
  {
    var args := GoTrueArgs(url, HeadersOrEmpty(headers), storageKey, autoRefreshToken,
                           persistSession, storage, httpClient, flowType);
    if FlagSet(kwargs, "async") then
      Async(args.(storage := Some(AsyncMemoryStorage(map[]))))
    else
      Sync(args.(storage := Some(SyncMemoryStorage(map[]))))
  }

  /**
   * The legacy factory is the current one with the flag read under another
   * name: whatever keywords it gets, it builds what `AuthCreate` builds when
   * given the value of `async` as `is_async`.
   */
  lemma LegacyIsRenamedAuthCreate(
    url: string, headers: Option<Headers>, storageKey: Option<string>,
    autoRefreshToken: Option<bool>, persistSession: bool, httpClient: Option<HttpClient>,
    storage: Option<AuthStorage>, flowType: FlowType, kwargs: Kwargs)
    ensures LegacyAuthCreate(url, headers, storageKey, autoRefreshToken, persistSession,
                             httpClient, storage, flowType, kwargs)
         == AuthCreate(url, headers, storageKey, autoRefreshToken, persistSession, storage,
                       httpClient, flowType, map["is_async" := Get(kwargs, "async", PyBool(false))])
  {
  }

  /**
   * Passing `is_async` (the keyword the facade and services.py use) to the
   * legacy factory has no effect: without `async` it always builds the
   * synchronous client, with a synchronous memory store.
   */
  lemma LegacyIgnoresIsAsync(
    url: string, headers: Option<Headers>, storageKey: Option<string>,
    autoRefreshToken: Option<bool>, persistSession: bool, httpClient: Option<HttpClient>,
    v: PyValue)
    ensures LegacyAuthCreate(url, headers, storageKey, autoRefreshToken, persistSession,
                             httpClient, kwargs := map["is_async" := v]).Sync?
    ensures LegacyAuthCreate(url, headers, storageKey, autoRefreshToken, persistSession,
                             httpClient, kwargs := map["is_async" := v]).args.storage
         == Some(SyncMemoryStorage(map[]))
  {
  }
}
