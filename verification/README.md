# supabase-py client facade, modelled in Dafny

This project models the client-construction and service-composition layer of
supabase-py. The facade (`APIClient`, and its asynchronous subclass
`AsyncAPI`) takes one base url and one API key and does the following:

- It refuses malformed credentials with a `ConfigurationError`.
- It merges its identity headers into the options it was given, which are shared and mutable.
- It derives five service endpoints.
- It builds the auth client eagerly.
- It builds the database (`postgrest`), `storage` and `functions` clients lazily, each with the token header current at the time.
- Auth events clear those caches and re-derive the token header.

Every collaborator client is built by a factory that picks its synchronous or
asynchronous variant from an `is_async` keyword.

Modules, one per concern:

| file | module | models |
|---|---|---|
| `wrappers.dfy` | `Wrappers` | `Option` and `Result` |
| `py_values.dfy` | `PyValues` | the Python values the facade inspects: truthiness, `kwargs.get`, header dicts |
| `services.dfy` | `Services` | `supabase/client/services.py`: the four factories; a built client is `Sync(args)` or `Async(args)` |
| `legacy_auth.dfy` | `LegacyAuth` | `supabase/client/auth.py`: the older auth factory, which reads the keyword `async` |
| `validation.dfy` | `Validation` | the gate of `APIClient.__init__`: the two regular expressions as character predicates, each proved equal to a reading of the pattern as a split of the string |
| `endpoints.dfy` | `Endpoints` | endpoint derivation and Python's global `str.replace` |
| `token_header.dfy` | `TokenHeader` | `_create_auth_header`, `_get_auth_headers` and both `_get_token_header` variants, as functions of what the session lookup gave |
| `client.dfy` | `Client` | the `ClientOptions` the facade mutates, and the `APIClient` class: construction, `create`, the lazy properties and the auth-event listener |

Behaviour of the source that the model keeps as written:

- **Global realtime replace.** The realtime endpoint replaces every `http` in the url, not only the scheme: `https://httpbin.org` gives `wss://wsbin.org/realtime/v1`.
- **Trailing newline in keys.** The key pattern ends in `$`, which in Python also matches before one final newline, so `ab.cd\n` is accepted.
- **Misspelled attribute.** The asynchronous `_get_token_header` reads `acess_token`. Every session lacks that attribute, and the error is suppressed, so `AsyncAPI.create` always ends with the raw key as its token.
- **Coroutine in sync mode.** The synchronous `_get_token_header` on an auth client built in async mode gets an un-awaited coroutine back. A coroutine is truthy and has no `access_token`, so this too ends with the raw key.
- **Token reset on other events.** An auth event other than sign-in, refresh and sign-out resets the token to the key but keeps the cached services. A storage client built with a session token then outlives that token (`Client.IgnoredEventKeepsSessionStorage`).
- **Shared default options.** The default `ClientOptions()` argument is one object shared by every client that relies on it. Its headers collect the identity headers of each client built over it (`Client.SharedOptionsMixKeys`).
- **`AsyncAPI` storage check.** The check runs before the url and key are validated. When a refused url or key ends construction, the options still hold the newly defaulted asynchronous store.
- **Auth storage comes from the mode flag.** The auth client's store comes from `options.is_async`, never from `options.storage`. An `AsyncAPI` over options with `is_async` false therefore gets a synchronous store, whatever the storage check accepted.

## Model

| member | source | states |
|---|---|---|
| Services.FreshMemoryStorage | supabase/client/services.py:25-31 | the store substituted for the given one is empty and asynchronous exactly in async mode |
| PyValues.FlagSet | supabase/client/services.py:25 | `bool(kwargs.get(name, False))` holds exactly when the keyword is present with a truthy value |
| Services.AuthCreate | supabase/client/services.py:10-32 | async exactly when `is_async` is truthy; `None` headers become `{}`; the storage argument is replaced by a fresh memory store of the selected mode; url, storage_key, auto_refresh_token, persist_session, http_client and flow_type are forwarded unchanged |
| Services.AuthCreateIgnoresStorage | supabase/client/services.py:25-31 | two calls that differ only in the storage argument build the same client |
| Services.AuthCreateDefaults | supabase/client/services.py:12-14 | left to its defaults the factory builds a synchronous client that persists the session, runs the implicit flow and has no headers, key, refresh setting or http client |
| Services.FunctionsCreate | supabase/client/services.py:35-40 | async exactly when `is_async` is truthy (absent means sync); url and headers forwarded unchanged |
| Services.PgRESTCreate | supabase/client/services.py:43-50 | async exactly when `is_async` is truthy; url, headers, schema and timeout forwarded unchanged |
| Services.StorageCreate | supabase/client/services.py:53-58 | async exactly when `is_async` is truthy; url, headers and timeout forwarded unchanged |
| Services.ModeDuality | supabase/client/services.py:25-58 | flipping only the mode flag changes only the variant tag (and for auth the mode of the substituted store); the tag equals the flag passed |
| LegacyAuth.LegacyAuthCreate | supabase/client/auth.py:6-27 | async exactly when `async` is truthy; `None` headers become `{}`; storage always replaced by a fresh store of the selected mode; the other arguments forwarded; flow_type defaults to implicit |
| LegacyAuth.LegacyIsRenamedAuthCreate | supabase/client/auth.py:10-27 | the legacy factory builds exactly what the services.py factory builds when `async` is passed on as `is_async` |
| LegacyAuth.LegacyIgnoresIsAsync | supabase/client/auth.py:20-27 | an `is_async` keyword alone, truthy or not, yields the synchronous client with a synchronous store |
| Validation.UrlMatchesIff | supabase/client/default.py:49-50 | the character-level url check holds exactly when the url is `http` or `https`, then `://`, then at least one character whose first is not a newline |
| Validation.UrlMatches | supabase/client/default.py:49 | no contract; the url check as a character predicate, characterised by UrlMatchesIff |
| Validation.SegmentSpan | supabase/client/default.py:53 | the length of the longest prefix made of `[A-Za-z0-9-_=]` characters |
| Validation.KeyMatches | supabase/client/default.py:53 | no contract; the key check without the `$` newline case, characterised by KeyMatchesIff (split) and the key example lemmas |
| Validation.KeyAccepted | supabase/client/default.py:53-54 | no contract; the key check including Python's `$` before a final newline, characterised by KeyAcceptedIff |
| Validation.SegmentSpanStopsAt | supabase/client/default.py:53 | a run of segment characters followed by a non-segment character is exactly the span |
| Validation.TailCharsConcat | supabase/client/default.py:53 | segment characters, an optional dot and tail characters together form a string over the tail alphabet |
| Validation.KeyMatchesSplits | supabase/client/default.py:53 | a key the character-level check accepts splits as segment `.` segment, optional dot, tail |
| Validation.KeySplitMatches | supabase/client/default.py:53 | every such split is accepted by the character-level check |
| Validation.KeyMatchesIff | supabase/client/default.py:53 | the character-level key check holds exactly when the key has that split |
| Validation.KeyAcceptedIff | supabase/client/default.py:53-54 | a key is accepted exactly when it, or it without one final newline, has that split |
| Validation.Validate | supabase/client/default.py:43-54 | succeeds exactly for a string url of the url pattern and a string key of the key pattern; otherwise fails with "supabase url is required" (url falsy or not a str), then "supabase key is required", then "Invalid URL", then "Invalid API key", in that order |
| Validation.InvalidTestUrlsRefused | tests/test_client.py:15-23 | the empty, `None`, numeric and container urls of the invalid-construction test fail with "supabase url is required" whatever the key |
| Validation.BareWordUrlRefused | tests/test_client.py:16 | the bare word of that test is refused as a url whatever the key |
| Validation.UrlAcceptedExamples | supabase/client/default.py:49-50 | `http://` and `https://` followed by any text not starting with a newline are accepted |
| Validation.UrlRefusedExamples | supabase/client/default.py:49-50 | nothing after `://`, a newline right after it, or another scheme is refused |
| Validation.JwtShapedKeyAccepted | supabase/client/default.py:53-54 | two non-empty segments and a third segment, joined by dots, form an accepted key |
| Validation.SampleKeyAccepted | tests/test_function_configuration.py:9 | the sample key (14, 15 and 15 `x`s split by dots) is accepted |
| Validation.TwoSegmentKeyAccepted | supabase/client/default.py:53-54 | two segments suffice |
| Validation.DottedTailKeyAccepted | supabase/client/default.py:53-54 | dots, `+` and `/` may recur in the tail |
| Validation.NewlineKeyAccepted | supabase/client/default.py:53-54 | one final newline after a valid key is tolerated |
| Validation.OneSegmentKeyRefused | supabase/client/default.py:53-54 | a key without a dot is refused |
| Validation.EmptyFirstSegmentRefused | supabase/client/default.py:53-54 | a key starting with its dot is refused |
| Validation.EmptySecondSegmentRefused | supabase/client/default.py:53-54 | a key whose first dot is not followed by a segment character is refused |
| Validation.ForeignCharacterKeyRefused | supabase/client/default.py:53-54 | a character outside the alphabets is refused |
| Validation.TwoNewlinesKeyRefused | supabase/client/default.py:53-54 | two final newlines are refused |
| Endpoints.BaseOf | supabase/client/default.py:62-66 | a base recovered from an endpoint and suffix gives back the endpoint when the suffix is appended |
| Endpoints.ReplaceAll | supabase/client/default.py:63 | no contract; Python's left-to-right, non-overlapping `str.replace`, characterised by ReplaceAllAppend, ReplaceAllWithout and ReplaceAllAround |
| Endpoints.DeriveEndpoints | supabase/client/default.py:62-66 | no contract; the five endpoints, characterised by EndpointsRecoverBase, EndpointsDistinct and RealtimeEndpoint |
| Endpoints.ReplaceAllWithout | supabase/client/default.py:63 | replacing in a string without the pattern's first character changes nothing |
| Endpoints.NoStraddle | supabase/client/default.py:63 | no occurrence of the pattern straddles a seam where one side's boundary character is not in the pattern |
| Endpoints.ReplaceAllAppend | supabase/client/default.py:63 | at such a seam, replacing in a concatenation is the concatenation of the replacements |
| Endpoints.ReplaceAllAppendAtMatch | supabase/client/default.py:63 | the same, when the left part starts with an occurrence |
| Endpoints.ReplaceAllAppendPastChar | supabase/client/default.py:63 | the same, when the left part starts with no occurrence |
| Endpoints.ReplaceAllKeepsFirst | supabase/client/default.py:63 | a string not starting with the pattern keeps its first character |
| Endpoints.ReplaceAllAtStart | supabase/client/default.py:63 | an occurrence at the start is replaced and the scan resumes after it |
| Endpoints.ReplaceAllAround | supabase/client/default.py:63 | in scheme, separator, host, suffix, only the leading pattern and the host are rewritten |
| Endpoints.EndpointsRecoverBase | supabase/client/default.py:62-66 | the rest, auth, storage and functions endpoints are the base url followed by their fixed suffix |
| Endpoints.EndpointsDistinct | supabase/client/default.py:62-66 | those four endpoints are pairwise different |
| Endpoints.RealtimeEndpoint | supabase/client/default.py:63 | the realtime endpoint is `ws://` or `wss://`, the host with every `http` turned into `ws`, then `/realtime/v1` |
| Endpoints.RealtimeOfPlainHost | supabase/client/default.py:63 | for a host without `h` only the scheme changes |
| Endpoints.RealtimeRewritesHost | supabase/client/default.py:63 | an `http` inside the host is rewritten too |
| TokenHeader.BearerTokenOfCreated | supabase/client/default.py:226-227 | the auth header built for a token carries exactly that token |
| TokenHeader.CreateAuthHeader | supabase/client/default.py:226-227 | no contract; the single `Authorization: Bearer <token>` entry, inverted by BearerToken (BearerTokenOfCreated, CreatedOfBearerToken) |
| TokenHeader.GetAuthHeaders | supabase/client/default.py:229-234 | no contract; `apiKey` and the key as bearer token, see ServiceHeadersCarryToken |
| TokenHeader.ServiceHeaders | supabase/client/default.py:142-143 | no contract; the auth headers updated with the token header, see ServiceHeadersCarryToken |
| TokenHeader.TokenAfterLookup | supabase/client/default.py:236-242 | no contract; the suppressed lookup with a named attribute, characterised by GetTokenHeader and AsyncGetTokenHeader |
| TokenHeader.CreatedOfBearerToken | supabase/client/default.py:226-227 | a single bearer entry is the header built for its token |
| TokenHeader.ServiceHeadersCarryToken | supabase/client/default.py:229-234 | the auth headers updated with a token header hold `apiKey` = key and, as their only other entry, the bearer token |
| TokenHeader.GetTokenHeader | supabase/client/default.py:236-242 | the header carries the found session's access token, and the raw key when the lookup raised, returned nothing or returned a non-session |
| TokenHeader.AsyncGetTokenHeader | supabase/client/default.py:321-327 | the header always carries the raw key, whatever the lookup gave |
| TokenHeader.TokenHeaderVariantsAgree | supabase/client/default.py:321-327 | the two variants agree exactly when no session with a token other than the key was found |
| TokenHeader.UnawaitedLookupKeepsKey | supabase/client/default.py:238-241 | the synchronous variant on an asynchronous auth client gets the raw key |
| Client.APIClient.Init | supabase/client/default.py:56-83 | after the gate: the identity headers are merged into the options' headers, their storage defaults to a synchronous store, the endpoints are derived, the auth client is built from the options in their mode, the token is the key and every lazy slot and realtime are unset |
| Client.APIClient.New | supabase/client/default.py:259-267 | `AsyncAPI` defaults the storage to an asynchronous store and refuses any other before the gate runs; then the gate's verdict and message; on failure the headers are untouched; on success the new client is valid and coherent with the given url and key, the options' headers and storage are as after `__init__`, and the auth client is the one built from the options (whose store ignores the options' storage) |
| Client.APIClient.Create | supabase/client/default.py:85-89 | the failure conditions and messages of construction; on success the client has the given url and key, the options' headers and storage and the auth client are as after construction, and the token is the session's when the synchronous class runs in sync mode and the raw key otherwise (`AsyncAPI`, or an un-awaited coroutine) |
| Client.APIClient.SetAuthToken | supabase/client/default.py:88 | replacing the token header of a freshly built client keeps it valid and coherent and changes nothing else |
| Client.APIClient.Postgrest | supabase/client/default.py:125-137 | first access merges the token header into the shared option headers and builds the database client from them with the options' schema, timeout and mode; later accesses return the cached client; coherence is kept |
| Client.APIClient.Storage | supabase/client/default.py:139-150 | first access builds the storage client with `apiKey` and the current bearer token; later accesses return it; coherence is kept |
| Client.APIClient.Functions | supabase/client/default.py:152-158 | first access builds the functions client with `apiKey` and the current bearer token; later accesses return it; coherence is kept |
| Client.APIClient.ListenToAuthEvents | supabase/client/default.py:244-253 | sign-in, refresh and sign-out clear all three slots and take the session's token (the key without a session), leaving the client coherent; any other event keeps the slots and resets the token to the key |
| Client.IgnoredEventKeepsSessionStorage | supabase/client/default.py:244-253 | after a sign-in and a storage access, an ignored event leaves the storage client with the session's token while the header carries the key |
| Client.SharedOptionsMixKeys | supabase/client/default.py:59 | two clients over one options object: the first one's database client carries its own bearer token but the second one's `apiKey` |
| Client.BuildTwoOverOneOptions | supabase/client/default.py:59 | after a second client is built over the same options, the first is still valid with its own token, while the shared headers carry the second client's `apiKey` |

## Left out

- `table`, `from_` and `rpc` (supabase/client/default.py:91-123 and 281-313): these are query building, which the database client does. The model stops at the built client.
- The realtime client: its construction is commented out, so the slot is always `None`.
- The session lookup: `get_session` is not modelled. What it yields is a parameter (`SessionLookup`) of `Create`, and auth events are delivered by calling `ListenToAuthEvents`. The registration with `on_auth_state_change` is not modelled.
- `await` and concurrency. Only the difference it makes to the lookup is modelled: an un-awaited coroutine, or a raise when a non-awaitable is awaited.
- `ClientOptions` is defined in `supabase/lib/client_options.py`, which is not part of this model. Its default values and its `replace` are therefore left out. The options are a class holding mutable `headers` and `storage` and read-only settings.
- `SupabaseClient.create` in `supabase/client/__init__.py` is not part of this model. That file and `supabase/__init__.py` are re-exports plus a one-line mode dispatch.
- Collaborator clients are opaque values recording their variant and construction arguments. Their network behaviour is not modelled.
- Client.APIClient.Postgrest: the database client records a snapshot of the option headers. In Python it may keep a reference to the same dict, and so see later merges.
- Client.APIClient.Init: the auth client likewise records a snapshot of the option headers, not the live dict.
- Python's regular-expression engine in general is not modelled. Only the two patterns the gate uses are, as character predicates.
