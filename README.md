# senasa-data-pipeline in Dafny

This is a model of the session-keeping core of `senasa-data-pipeline`. That pipeline logs in to SENASA's honey-traceability portal (trazabilidadapicola.senasa.gob.ar) behind AFIP, the federal tax authority's identity broker. The model also covers the small in-memory record pipeline next to it.

The model covers these parts:

- **Session use case** (`EnsureSession`).
  - It loads the cached session: cookies, expiry and an active flag.
  - It reuses the session after one successful probe.
  - Otherwise it obtains an AFIP token/sign, logs in and validates with a bounded retry (three attempts, 1 s pause, ×1.5 backoff).
  - It then either saves the new session (`REFRESHED`) or marks the cache inactive (`ERROR`).
  - `Execute` is proved against a specification function `EnsureRun`:
    - which result comes back;
    - what the store holds afterwards;
    - how many probes and provider calls were made;
    - which cookies were saved;
    - which pauses were taken.
- **Session cache** (`SessionStore`, `AuthFakes`). These are the in-memory store and the test fakes, each a three-field state machine. Their operations are stated on a value-level `SessionRecord`. Properties:
  - a reachable state that is active always has an expiry;
  - `mark_inactive` is idempotent;
  - a load after a save returns what was saved.
- **HTTP client** (`Http`). It is one persistent client with a cookie jar, shared by all providers.
  - The server is an oracle: its answer is a function of the whole request trace.
  - The client records that trace.
  - Each response carries the parsed HTML document BeautifulSoup would give, and the JSON object its body decodes to (as `json.loads(resp.text)` would give), or none. These parses are oracles too.
  - The port's `HttpResponse` has no `json` method, so the unified provider's `resp.json()` calls always raise. The model shows that behaviour on servers with no JSON reply, and the JSON oracle gives the intended one (see "## Findings").
- **SENASA login consumer** (`SenasaLogin`, `Markup`):
  - the probe classifier;
  - auto-submission of the intermediate token/sign form;
  - collection of the hidden fields;
  - account-button lookup and the `_` → `$` event target;
  - the partial-postback payload built by `update` and `setdefault`;
  - the final cookie dump.
- **AFIP token providers** (`AfipJsf`, `PortalCf`, `UnifiedAfip`). There are three:
  - the three-step JSF form login;
  - the Portal CF web API with its single retry;
  - the unified provider: JSF first, with Portal CF as the fallback.

  Each provider class method is proved equal to a function over the request trace. Lemmas on those functions prove the request order, what each request carries, when the chain stops, and when it succeeds.
- **Records** (`Domain`, `RecordDto`, `Repositories`, `UseCases`):
  - the CUIT and SENASA-code value objects, as subset types with total constructors;
  - the list-backed repository: append, first match, Python slice;
  - the synchronisation loop, which counts and saves the accepted records;
  - the export projection;
  - the stub adapters.

All files are verified together; there is no `include`. `Wrappers` and `Sequences` hold the `Option`/`Result` types and the Python list idioms the other modules use.

## Model

| member | source | states |
|---|---|---|
| Domain.NewCuit | src/senasa_pipeline/domain/model.py:9-13 | Accepted iff the string is exactly 11 ASCII digits. An accepted value is returned unchanged; otherwise the error is "CUIT inválido". |
| Domain.CuitRejectsWrongLength | src/senasa_pipeline/domain/value_objects/cuit.py:3-5 | Strings of 10 or 12 characters are rejected whatever they contain. |
| Domain.CuitRejectsNonDigit | src/senasa_pipeline/domain/value_objects/cuit.py:4 | A single non-digit anywhere is rejected, and so is the empty string. |
| Domain.NewCodigoSenasa | src/senasa_pipeline/domain/model.py:15-19 | Accepted iff the length is at least 3, with no format check. An accepted value is unchanged; otherwise the error is "Código SENASA inválido". |
| Domain.CodigoAcceptsAnyCharacters | src/senasa_pipeline/domain/value_objects/codigo_senasa.py:2-4 | Any three characters are accepted as they are; two are not. |
| Domain.FechaFromDate | src/senasa_pipeline/domain/model.py:21-25 | Year, month and day are preserved. |
| Domain.FechaFromDateRoundTrip | src/senasa_pipeline/domain/model.py:23-25 | Viewing the expiry date as a date gives back the input, so `from_date` is idempotent through that view. |
| Domain.NewSenasaRecord | src/senasa_pipeline/domain/model.py:50-53 | A record built from a drum alone has no establishment. |
| RecordDto.FromDomain | src/senasa_pipeline/application/dtos/senasa_record_dto.py:15-25 | The two codes are copied as strings; peso, tipo_miel, origen and productor are copied unchanged. |
| RecordDto.FromDomainForgets | src/senasa_pipeline/application/use_cases.py:23-33 | Two records project to equal rows iff their drums agree on everything except the extraction date. The establishment never matters. |
| Repositories.FirstByNro | src/senasa_pipeline/infrastructure/repositories/duckdb_repository.py:15-16 | None iff no record has the number; otherwise the lowest-index record that has it. |
| Repositories.FindableAfterAppend | src/senasa_pipeline/infrastructure/repositories/duckdb_repository.py:12-16 | After appending r, a lookup by r's number finds a record. |
| Repositories.AppendKeepsFirstMatch | src/senasa_pipeline/infrastructure/adapters.py:31-35 | Appending never changes an existing first match, so of two records with one number the earlier is returned. |
| Repositories.DuckDBSenasaRepository.constructor | src/senasa_pipeline/infrastructure/repositories/duckdb_repository.py:9-10 | A new repository is empty. |
| Repositories.DuckDBSenasaRepository.Save | src/senasa_pipeline/infrastructure/repositories/duckdb_repository.py:12-13 | The record is appended at the end: the length grows by one and earlier records are unchanged. |
| Repositories.DuckDBSenasaRepository.GetByNro | src/senasa_pipeline/infrastructure/adapters.py:34-35 | The first stored record with the number, or None iff there is none. The function only reads. |
| Repositories.DuckDBSenasaRepository.List | src/senasa_pipeline/infrastructure/repositories/duckdb_repository.py:18-19 | `data[offset:offset+limit]`. For non-negative arguments its length is max(0, min(limit, len − offset)) and its k-th element is `data[offset+k]`. Limit defaults to 100, offset to 0. |
| Repositories.SaveThenFind | src/senasa_pipeline/infrastructure/repositories/duckdb_repository.py:12-16 | Save followed by get_by_nro on the saved number returns a record with that number. |
| Repositories.PostgreSQLSenasaRepository.GetByNro | src/senasa_pipeline/infrastructure/adapters.py:42 | The stub always returns None. |
| Repositories.PostgreSQLSenasaRepository.List | src/senasa_pipeline/infrastructure/adapters.py:43-44 | The stub always returns an empty list. |
| Repositories.SenasaWebScrapingAdapter.FetchLatest | src/senasa_pipeline/infrastructure/adapters.py:49-52 | Empty for either value of `incremental`. |
| Repositories.SenasaAPIAdapter.FetchLatest | src/senasa_pipeline/infrastructure/adapters.py:54-56 | Empty for either value of `incremental`. |
| UseCases.Accepted | src/senasa_pipeline/application/use_cases/sync_senasa_data.py:24-27 | The accepted records, in fetch order. They are no more than the records fetched, and a record is in the result iff it was fetched and accepted. |
| UseCases.AcceptedExtremes | src/senasa_pipeline/application/use_cases/sync_senasa_data.py:23-28 | When every record is accepted all of them are kept; when none is, nothing is kept. The empty fetch is a case of this. |
| UseCases.SyncSenasaData | src/senasa_pipeline/application/use_cases/sync_senasa_data.py:22-28 | The repository receives exactly the accepted records, appended in fetch order. The count is their number, at most the number fetched. The request's flag reaches the scraper unchanged. |
| UseCases.SyncSenasaDataNotified | src/senasa_pipeline/application/use_cases.py:72-82 | As above. With a notifier, "sync_started" {incremental} comes before the fetch and "sync_finished" {processed: count} after it. Without one, no event is sent. |
| UseCases.SyncOneRecordScenario | tests/unit/test_sync_use_case.py:22-27 | One always-valid fetched record gives the count 1, and nro "ABC123" is then found. |
| UseCases.ExportRows | src/senasa_pipeline/application/use_cases.py:90 | The same number of rows as records, in order, each row being `from_domain` of its record. |
| UseCases.ExportSenasaData | src/senasa_pipeline/application/use_cases/export_senasa_data.py:12-14 | Storage receives the projection of the first min(10000, len) records (limit 10000, offset 0), with the request's format and the path unchanged. Storage's answer is returned as is. |
| UseCases.ValidateSenasaRecord | src/senasa_pipeline/application/use_cases.py:97-98 | Exactly the validator's verdict. |
| SessionStore.Fresh | src/senasa_pipeline/infrastructure/adapters/session/memory_store.py:9-12 | A fresh store is (empty map, no expiry, inactive). |
| SessionStore.Saved | src/senasa_pipeline/infrastructure/adapters/session/memory_store.py:17-20 | After save(c, e) the record is (c, Some(e), active). |
| SessionStore.Inactive | src/senasa_pipeline/infrastructure/adapters/session/memory_store.py:22-23 | mark_inactive clears only the flag; cookies and expiry are unchanged. |
| SessionStore.InactiveIdempotent | src/senasa_pipeline/infrastructure/adapters/session/memory_store.py:17-23 | mark_inactive twice equals mark_inactive once, and a later save reactivates the store. |
| SessionStore.ReachableActiveHasExpiry | src/senasa_pipeline/infrastructure/adapters/session/memory_store.py:17-20 | In every state reachable from a fresh store, an active store has an expiry. |
| SessionStore.LoadAfterSave | src/senasa_pipeline/infrastructure/adapters/session/memory_store.py:14-20 | Whatever came before, a load after save(c, e) gives (c, e, true). |
| SessionStore.InMemorySessionStore.constructor | src/senasa_pipeline/infrastructure/adapters/session/memory_store.py:9-12 | A new store is in the fresh state: no cookies, no expiry, inactive. |
| SessionStore.InMemorySessionStore.Load | src/senasa_pipeline/infrastructure/adapters/session/memory_store.py:14-15 | Returns the stored triple and changes nothing. |
| SessionStore.InMemorySessionStore.Save | src/senasa_pipeline/infrastructure/adapters/session/memory_store.py:17-20 | The new state is Saved(old, c, e): the given cookies and expiry, active. |
| SessionStore.InMemorySessionStore.MarkInactive | src/senasa_pipeline/infrastructure/adapters/session/memory_store.py:22-23 | The new state is Inactive(old): only the flag is cleared. |
| AuthFakes.FakeStore.constructor | tests/unit/_fakes_auth.py:5-8 | FakeStore starts as (empty, None, inactive). |
| AuthFakes.FakeStore.Load | tests/unit/_fakes_auth.py:9-10 | Returns the stored triple. |
| AuthFakes.FakeStore.Save | tests/unit/_fakes_auth.py:11-14 | Sets the cookies and the expiry and makes the store active. |
| AuthFakes.FakeStore.MarkInactive | tests/unit/_fakes_auth.py:15-16 | Clears only the flag. |
| AuthFakes.FakeProvider.constructor | tests/unit/_fakes_auth.py:19-21 | Token and sign are as configured (defaults "tok", "sig"), and `called` is 0. |
| AuthFakes.FakeProvider.GetTokenSign | tests/unit/_fakes_auth.py:22-24 | Returns the configured pair and increments `called` by exactly one. |
| AuthFakes.FakeConsumer.constructor | tests/unit/_fakes_auth.py:27-30 | Cookies start as {"cookie": "value"} and the consumer is not yet validated. |
| AuthFakes.FakeConsumer.ValidateSession | tests/unit/_fakes_auth.py:31-35 | The first call returns valid_first and every later call returns true. The cookies are untouched. |
| AuthFakes.FakeConsumer.LoginWithTokenSign | tests/unit/_fakes_auth.py:36-37 | The cookies become {"session": "abc"} whatever the token and sign. |
| EnsureSession.FirstValid | src/senasa_pipeline/application/use_cases/ensure_senasa_session.py:88-106 | The offset of the first true probe among the next n, all earlier ones being false or raising; None iff none of the n is true. |
| EnsureSession.RetrySleeps | src/senasa_pipeline/application/use_cases/ensure_senasa_session.py:90-104 | The pauses taken: one after each failed attempt except the last (k pauses when attempt k+1 succeeds, n−1 when all fail). The i-th pause is delay · 1.5^i. |
| EnsureSession.RetryStopsAt | src/senasa_pipeline/application/use_cases/ensure_senasa_session.py:90-98 | When the first true probe is at offset k: k+1 probes and exactly the given k pauses. |
| EnsureSession.RetryExhausted | src/senasa_pipeline/application/use_cases/ensure_senasa_session.py:90-106 | When no probe is true: n probes and n−1 pauses (none when n ≤ 0). |
| EnsureSession.ProbeWithRetry | src/senasa_pipeline/application/use_cases/ensure_senasa_session.py:88-106 | The loop returns true iff a probe among max_retries is true, and stops right after it. An exception counts as a failed attempt. It makes RetryProbes probe calls and takes the RetrySleeps pauses. |
| EnsureSession.EnsureRun | src/senasa_pipeline/application/use_cases/ensure_senasa_session.py:47-86 | `execute` as a function of the stored record, the clock and the scripts. At most one provider call, none iff the result is ALREADY_ACTIVE, and then the store is untouched and the stored expiry is returned. An expiry comes back iff the status is not ERROR. CachedSessionReused, StaleSessionNotProbed, ValidationBounded, RefreshedSavesSession, ErrorMarksInactive and StatusesExhaustive state the rest. |
| EnsureSession.FreshLogin | src/senasa_pipeline/application/use_cases/ensure_senasa_session.py:62-86 | The fresh-login path: exactly one provider call, never ALREADY_ACTIVE, a login iff the provider succeeded, and at most 3 validation probes. REFRESHED saves the post-login cookies with expiry now + ttl, active. ERROR returns no expiry and leaves the store as mark_inactive left it. |
| EnsureSession.RefreshedThenAlreadyActive | src/senasa_pipeline/application/use_cases/ensure_senasa_session.py:47-86 | The round trip of `execute`: after REFRESHED, a second call within the ttl whose probe answers true returns ALREADY_ACTIVE with the same expiry, calls no provider and leaves the store as saved. This holds when the login left some cookies. |
| EnsureSession.EmptyCookiesNotReused | src/senasa_pipeline/application/use_cases/ensure_senasa_session.py:51 | When the login left no cookies, the saved session never counts as existing: the next call is never ALREADY_ACTIVE and asks the provider again. |
| EnsureSession.EnsureSenasaSessionUseCase.ValidateWithRetry | src/senasa_pipeline/application/use_cases/ensure_senasa_session.py:88-106 | The same as ProbeWithRetry, with the pauses appended to the use case's record of sleeps. |
| EnsureSession.EnsureSenasaSessionUseCase.constructor | src/senasa_pipeline/application/use_cases/ensure_senasa_session.py:32-45 | The ttl is ttl_hours hours (default 12), in seconds. |
| EnsureSession.EnsureSenasaSessionUseCase.ReuseCachedSession | src/senasa_pipeline/application/use_cases/ensure_senasa_session.py:48-60 | Reused iff the stored session exists and its single probe is true. Exactly one probe happens iff the session exists, and none otherwise. |
| EnsureSession.EnsureSenasaSessionUseCase.LoginAndValidate | src/senasa_pipeline/application/use_cases/ensure_senasa_session.py:62-86 | The result, the store, the probe count, the provider calls, the logins, the cookies and the pauses are those of FreshLogin. |
| EnsureSession.EnsureSenasaSessionUseCase.Execute | src/senasa_pipeline/application/use_cases/ensure_senasa_session.py:47-86 | The result, the store, the probe count, the provider calls, the logins, the cookies and the pauses are those of EnsureRun. |
| EnsureSession.CachedSessionReused | src/senasa_pipeline/application/use_cases/ensure_senasa_session.py:48-57 | With cookies, an expiry after now, the active flag and a true probe, the result is ALREADY_ACTIVE with the stored expiry. There is one probe, no provider call and no login, and the store is untouched. |
| EnsureSession.StaleSessionNotProbed | src/senasa_pipeline/application/use_cases/ensure_senasa_session.py:51-66 | When the session does not exist, no cached probe happens, the provider is called once, and the result is never ALREADY_ACTIVE. |
| EnsureSession.FailedProbeFallsThrough | src/senasa_pipeline/application/use_cases/ensure_senasa_session.py:53-60 | A false or raising cached probe is swallowed. The provider is called and the login follows. |
| EnsureSession.ValidationBounded | src/senasa_pipeline/application/use_cases/ensure_senasa_session.py:67-106 | After login there are at most 3 probes and at most 2 pauses. The first pause is 1.0 and each later pause is 1.5 times the one before. REFRESHED means the last probe was the first true one. |
| EnsureSession.RefreshedSavesSession | src/senasa_pipeline/application/use_cases/ensure_senasa_session.py:62-83 | REFRESHED means the provider's pair was used to log in, and the store holds the consumer's post-login cookies with expiry now + ttl, active. The result returns that expiry. |
| EnsureSession.ErrorMarksInactive | src/senasa_pipeline/application/use_cases/ensure_senasa_session.py:73-86 | Every ERROR has no expiry and leaves the store as mark_inactive left it. The message is the validation message iff the provider and the login both succeeded. |
| EnsureSession.StatusesExhaustive | src/senasa_pipeline/application/use_cases/ensure_senasa_session.py:47-86 | Both directions of when each status occurs: ALREADY_ACTIVE iff the cached probe passes; REFRESHED iff it does not, provider and login succeed, and a validation probe is true. |
| EnsureSession.ScriptedProvider.GetTokenSign | tests/unit/_fakes_auth.py:22-24 | Returns (or raises) the scripted outcome and counts the call. |
| EnsureSession.ScriptedConsumer.ValidateSession | tests/unit/_fakes_auth.py:31-35 | The i-th call answers the i-th scripted probe. Cookies and logins are unchanged. |
| EnsureSession.ScriptedConsumer.LoginWithTokenSign | tests/unit/_fakes_auth.py:36-37 | Records the login. When the login returns, the cookies are replaced by the scripted post-login cookies. |
| EnsureSession.FakeConsumerFollowsScript | tests/unit/_fakes_auth.py:26-35 | A fresh FakeConsumer answers its first two probes as the script FakeConsumerProbes says. |
| EnsureSession.AlreadyActiveScenario | tests/unit/test_auth_use_case.py:6-19 | A store saved with an expiry 6 h ahead and a first probe that is true give ALREADY_ACTIVE, that expiry, and no provider call. |
| EnsureSession.RefreshedWhenInvalidScenario | tests/unit/test_auth_use_case.py:22-34 | An empty store, provider ("T","S") and a first probe that is false give REFRESHED with exactly two probes. The store holds {"session": "abc"}, now + 12 h, active. |
| Http.HttpClient.Send | src/senasa_pipeline/application/ports/http_client_port.py:18-28 | The port's `get` and `post`, with the method carried in the request. The request joins the trace, the reply comes from the server oracle, and its cookies are merged into the jar. A connection failure leaves the jar alone. |
| Http.HttpClient.DumpCookies | src/senasa_pipeline/application/ports/http_client_port.py:30 | Returns the jar and changes nothing. |
| Markup.FindInput | src/senasa_pipeline/infrastructure/adapters/afip/jsf_provider.py:41 | The input it returns is the first with the name, every earlier input having another name; None iff no input has the name. |
| Markup.InputValueOrEmpty | src/senasa_pipeline/infrastructure/adapters/afip/jsf_provider.py:88-91 | "" when no input has the name. Otherwise it is the value attribute of the first input with the name, or "" when that input has none. |
| Markup.FindFormById | src/senasa_pipeline/infrastructure/adapters/afip/jsf_provider.py:42 | The form it returns is the first with the id, every earlier form having another id; None iff no form has the id. |
| Markup.FindFormByNameOrFirst | src/senasa_pipeline/infrastructure/adapters/afip/jsf_provider.py:85 | When some form has the name, the first such form. When none has it and the page has forms, `forms[0]`. None iff the page has no form. |
| Markup.FindAnchorById | src/senasa_pipeline/infrastructure/adapters/senasa/login_consumer.py:55 | The anchor it returns is the first with the id, every earlier anchor having another id; None iff no anchor has the id. |
| Markup.FindAnchorWithText | src/senasa_pipeline/infrastructure/adapters/senasa/login_consumer.py:57 | The anchor it returns is the first whose non-empty text contains the needle, no earlier anchor qualifying; None iff no anchor qualifies. |
| Markup.FieldMapLastWins | src/senasa_pipeline/infrastructure/adapters/senasa/login_consumer.py:50-52 | A name is a key iff some selected input carries it, and its value is that of the last such input (a missing value gives ""). |
| SenasaLogin.ClassifyProbe | src/senasa_pipeline/infrastructure/adapters/senasa/login_consumer.py:87-96 | True iff the status is 200 and the body contains "__VIEWSTATE". A 301/302/303/307/308 whose Location contains "/Login.aspx" is false; every other case fails closed. |
| SenasaLogin.ViewStateMarkerSubsumed | src/senasa_pipeline/infrastructure/adapters/senasa/login_consumer.py:90 | The quoted-attribute test implies the bare-marker test, so it never decides anything. |
| SenasaLogin.ProbeRun | src/senasa_pipeline/infrastructure/adapters/senasa/login_consumer.py:88-96 | Exactly one GET of /Sur/Extracciones/List without redirects, classified as above. |
| SenasaLogin.EventTarget | src/senasa_pipeline/infrastructure/adapters/senasa/login_consumer.py:61-62 | Same length, every "_" becomes "$", every other character is unchanged, and no "_" is left. |
| SenasaLogin.FindButton | src/senasa_pipeline/infrastructure/adapters/senasa/login_consumer.py:55-57 | The fixed-id anchor is preferred. None iff no anchor has that id and none has text containing "COOP. APICOLA DEL PARANA". |
| SenasaLogin.SetDefault | src/senasa_pipeline/infrastructure/adapters/senasa/login_consumer.py:70-73 | `setdefault` keeps an existing value, adds the key otherwise, and changes no other key. |
| SenasaLogin.ForcedAndDefaultsDisjoint | src/senasa_pipeline/infrastructure/adapters/senasa/login_consumer.py:64-73 | No defaulted key is one of the four postback keys. |
| SenasaLogin.SelectionPayload | src/senasa_pipeline/infrastructure/adapters/senasa/login_consumer.py:63-73 | The payload is the defaults, overridden by the hidden fields, overridden by the four postback keys. |
| SenasaLogin.SelectionPayloadPrecedence | src/senasa_pipeline/infrastructure/adapters/senasa/login_consumer.py:63-73 | The four postback keys always hold their forced values. The four defaults appear only when absent, and an existing value is kept. Every other hidden key is kept, and there are no other keys. |
| SenasaLogin.CollectHiddenFields | src/senasa_pipeline/infrastructure/adapters/senasa/login_consumer.py:50-52 | The loop builds the map of the hidden inputs with a name; the last input of a name wins. |
| SenasaLogin.IntermediateForm | src/senasa_pipeline/infrastructure/adapters/senasa/login_consumer.py:34-35 | The first form is chosen iff it holds both a token and a sign input. |
| SenasaLogin.SubmitIntermediate | src/senasa_pipeline/infrastructure/adapters/senasa/login_consumer.py:36-48 | The form's POST (named inputs, action defaulting to the login URL resolved against it), then a reload of the login page. On success the reloaded document is the one read. |
| SenasaLogin.LoginPage | src/senasa_pipeline/infrastructure/adapters/senasa/login_consumer.py:19-48 | The /afip POST comes first. There are 1 to 4 requests, and on success the document is the last reply's. |
| SenasaLogin.SelectAccount | src/senasa_pipeline/infrastructure/adapters/senasa/login_consumer.py:60-84 | Without a selection nothing is sent and the jar is the value. With one, exactly that POST is sent, and the run succeeds iff its reply arrives. |
| SenasaLogin.LoginRun | src/senasa_pipeline/infrastructure/adapters/senasa/login_consumer.py:18-85 | On success the value is the jar as it stands after the last request. |
| SenasaLogin.AutoSubmitOnlyWithTokenSign | src/senasa_pipeline/infrastructure/adapters/senasa/login_consumer.py:34-48 | The intermediate form is submitted iff the first login page shows both token and sign. Without it, the first login page is the one read. |
| SenasaLogin.SelectionOnlyWithButton | src/senasa_pipeline/infrastructure/adapters/senasa/login_consumer.py:55-84 | With a button, the run ends with the selection POST built from the final page. Without one, no selection POST is sent, and the cookies are still set from the jar. |
| SenasaLogin.SenasaLoginConsumer.constructor | src/senasa_pipeline/infrastructure/adapters/senasa/login_consumer.py:10-12 | Cookies start empty. |
| SenasaLogin.SenasaLoginConsumer.FetchLoginPage | src/senasa_pipeline/infrastructure/adapters/senasa/login_consumer.py:19-48 | The client state and the result are LoginPage's. |
| SenasaLogin.SenasaLoginConsumer.SubmitIntermediateForm | src/senasa_pipeline/infrastructure/adapters/senasa/login_consumer.py:36-48 | The client state and the result are SubmitIntermediate's. |
| SenasaLogin.SenasaLoginConsumer.SelectAccountOn | src/senasa_pipeline/infrastructure/adapters/senasa/login_consumer.py:50-84 | The client state and the result are SelectAccount's for the page's selection. |
| SenasaLogin.SenasaLoginConsumer.LoginWithTokenSign | src/senasa_pipeline/infrastructure/adapters/senasa/login_consumer.py:18-85 | The client ends as LoginRun says. On success `cookies` is the dumped jar; on failure the error propagates and `cookies` is unchanged. |
| SenasaLogin.SenasaLoginConsumer.ValidateSession | src/senasa_pipeline/infrastructure/adapters/senasa/login_consumer.py:87-96 | The client state and the verdict are ProbeRun's. |
| AfipJsf.RequestsCarryUsername | src/senasa_pipeline/infrastructure/adapters/afip/jsf_provider.py:49-77 | Both POSTs send the configured CUIT as F1:username. |
| AfipJsf.ExtractStep | src/senasa_pipeline/infrastructure/adapters/afip/jsf_provider.py:41-46 | A step exists iff the ViewState input, form F1 and a truthy action are all present. The action is resolved against the base, and the ViewState defaults to "". |
| AfipJsf.ExtractStepNeedsViewStateAndF1 | src/senasa_pipeline/infrastructure/adapters/afip/jsf_provider.py:43-44 | A page without a ViewState input or without form F1 yields no step. |
| AfipJsf.FormStep | src/senasa_pipeline/infrastructure/adapters/afip/jsf_provider.py:33-67 | One request. It succeeds iff the reply arrives and holds a step, and that step is the value. The failure is the step's RuntimeError message or the connection error. |
| AfipJsf.JsfTokenSign | src/senasa_pipeline/infrastructure/adapters/afip/jsf_provider.py:84-92 | ("", "") when there is no form. Otherwise the token and sign values of "myform" or the first form, "" for a missing input. No action check. |
| AfipJsf.JsfPasswordStep | src/senasa_pipeline/infrastructure/adapters/afip/jsf_provider.py:69-92 | One POST with captcha "", the password and the CUIT page's ViewState. It succeeds iff the reply arrives, and its value is JsfTokenSign of that reply. |
| AfipJsf.JsfFinish | src/senasa_pipeline/infrastructure/adapters/afip/jsf_provider.py:28-31 | Succeeds iff the password reply arrives and both its token and sign are non-empty; the value is then that pair. |
| AfipJsf.JsfAfterLogin | src/senasa_pipeline/infrastructure/adapters/afip/jsf_provider.py:27-31 | The CUIT POST built from the login page's step comes first. At most two requests; on success exactly two, with a non-empty token and sign. |
| AfipJsf.JsfRun | src/senasa_pipeline/infrastructure/adapters/afip/jsf_provider.py:25-31 | The login page GET comes first. One to three requests, no retry; on success exactly three, with a non-empty token and sign. |
| AfipJsf.JsfCuitStepUsesLoginPage | src/senasa_pipeline/infrastructure/adapters/afip/jsf_provider.py:48-60 | The CUIT POST goes to the action that the login page supplied, with its ViewState and the CUIT. |
| AfipJsf.JsfPasswordStepUsesCuitPage | src/senasa_pipeline/infrastructure/adapters/afip/jsf_provider.py:62-83 | The password POST goes to the action the CUIT page supplied, with its ViewState, and its Referer is the CUIT action URL. |
| AfipJsf.JsfSucceedsIff | src/senasa_pipeline/infrastructure/adapters/afip/jsf_provider.py:25-92 | Success iff three replies arrive, both pages yield a step, and the last page's token and sign are non-empty. The value is then that token and sign. |
| AfipJsf.SubmitFormStep | src/senasa_pipeline/infrastructure/adapters/afip/jsf_provider.py:33-46 | The client state and the result are FormStep's. |
| AfipJsf.JSFProvider.constructor | src/senasa_pipeline/infrastructure/adapters/afip/jsf_provider.py:20-23 | Keeps the client, the CUIT and the password. |
| AfipJsf.JSFProvider.GetInitialAfipCuitPage | src/senasa_pipeline/infrastructure/adapters/afip/jsf_provider.py:33-46 | FormStep of the login-page GET, with the initial error message. |
| AfipJsf.JSFProvider.PostCuit | src/senasa_pipeline/infrastructure/adapters/afip/jsf_provider.py:48-67 | FormStep of the CUIT POST, with the password-page error message. |
| AfipJsf.JSFProvider.PostPassword | src/senasa_pipeline/infrastructure/adapters/afip/jsf_provider.py:69-92 | The client state and the result are JsfPasswordStep's. |
| AfipJsf.JSFProvider.GetTokenSign | src/senasa_pipeline/infrastructure/adapters/afip/jsf_provider.py:25-31 | The client state and the result are JsfRun's. |
| PortalCf.CheckTokenSign | src/senasa_pipeline/infrastructure/adapters/afip/portal_cf_provider.py:33-37 | Success iff token and sign are both present and truthy. The values are then returned unchanged; otherwise the error is "AFIP Portal: token/sign no disponibles". |
| PortalCf.AuthorizationRetry | src/senasa_pipeline/infrastructure/adapters/afip/portal_cf_provider.py:27-32 | One app refresh and exactly one more authorization GET. A non-JSON second body is a decode error; a JSON one is checked. |
| PortalCf.AuthorizationPart | src/senasa_pipeline/infrastructure/adapters/afip/portal_cf_provider.py:23-32 | A JSON authorization body ends the run after one request. Otherwise the retry follows, and it happens only after a non-JSON first body. On success the last reply's data passes the check. |
| PortalCf.PortalCfRequestOrder | src/senasa_pipeline/infrastructure/adapters/afip/portal_cf_provider.py:18-32 | Requests go app, servicios, descriptor, authorization, then possibly app and authorization again, and nothing else. The retry happens iff the first authorization body is not JSON. |
| PortalCf.PortalCfOutcome | src/senasa_pipeline/infrastructure/adapters/afip/portal_cf_provider.py:24-37 | On success token and sign are the last reply's truthy values, unchanged. A second non-JSON body gives JsonDecodeError. |
| PortalCf.DescriptorNeverInspected | src/senasa_pipeline/infrastructure/adapters/afip/portal_cf_provider.py:21 | Two servers that differ only in their answer to the descriptor GET give the same result and the same requests. |
| PortalCf.PortalCfRun | src/senasa_pipeline/infrastructure/adapters/afip/portal_cf_provider.py:16-37 | `get_token_sign` over the request trace. The app page comes first, at most six requests are sent, and on success both values are truthy. PortalCfRequestOrder, PortalCfOutcome and DescriptorNeverInspected state the rest. |
| PortalCf.PortalCFProvider.constructor | src/senasa_pipeline/infrastructure/adapters/afip/portal_cf_provider.py:12-14 | Keeps the client and the CUIT. |
| PortalCf.PortalCFProvider.GetTokenSign | src/senasa_pipeline/infrastructure/adapters/afip/portal_cf_provider.py:16-37 | The client state and the result are PortalCfRun's. |
| UnifiedAfip.UnifiedTokenSign | src/senasa_pipeline/infrastructure/adapters/afip/unified_provider.py:104-122 | "myform" is preferred, else the first form. The result is all-empty or all-non-empty. It is non-empty exactly when the form has a truthy action and non-empty token and sign values, and it is then those. |
| UnifiedAfip.UnifiedPasswordStep | src/senasa_pipeline/infrastructure/adapters/afip/unified_provider.py:82-122 | One password POST. It succeeds iff the reply arrives, with value UnifiedTokenSign of the reply. |
| UnifiedAfip.UnifiedAfterLogin | src/senasa_pipeline/infrastructure/adapters/afip/unified_provider.py:210-213 | The CUIT POST comes first. At most two requests; on success two, with the value read from the password reply. |
| UnifiedAfip.JsfAttempt | src/senasa_pipeline/infrastructure/adapters/afip/unified_provider.py:207-213 | The initial GET comes first, with one to three requests. The first two steps fail with the unified provider's messages (lines 49-50, 76-77). On success there are three requests, and the value is read from the last reply. |
| UnifiedAfip.ServiceInfoRetry | src/senasa_pipeline/infrastructure/adapters/afip/unified_provider.py:149-165 | /portal/app/, /portal/servicios and a second descriptor GET (without the AJAX header). A non-JSON body gives {}. |
| UnifiedAfip.ServiceInfoRun | src/senasa_pipeline/infrastructure/adapters/afip/unified_provider.py:134-165 | The AJAX descriptor GET comes first. A JSON body ends the run after one request; otherwise the retry follows, for 4 requests on success. At most two descriptor GETs, and no other URL is requested. |
| UnifiedAfip.ServiceAvailable | src/senasa_pipeline/infrastructure/adapters/afip/unified_provider.py:230-234 | {} fails the check. It passes iff servicio.serviceName is "senasa_traapi". A non-object "servicio" raises AttributeError. |
| UnifiedAfip.AuthorizationRun | src/senasa_pipeline/infrastructure/adapters/afip/unified_provider.py:167-200 | The authorization GET comes first; a non-JSON body brings /portal/servicios and one more GET. Success iff the last reply's JSON has both "token" and "sign" keys, and the value is their values. |
| UnifiedAfip.CheckAuthorization | src/senasa_pipeline/infrastructure/adapters/afip/unified_provider.py:197-200 | Only presence is checked, not non-emptiness. Otherwise the error is the no-authorization message. |
| UnifiedAfip.PortalFallback | src/senasa_pipeline/infrastructure/adapters/afip/unified_provider.py:224-239 | The Portal CF app page is the first request of the fallback. |
| UnifiedAfip.JsfSuccessSkipsPortal | src/senasa_pipeline/infrastructure/adapters/afip/unified_provider.py:209-217 | A JSF token/sign ends the run after the three JSF requests, with no Portal CF request. That pair is returned as is. |
| UnifiedAfip.JsfFailureFallsBack | src/senasa_pipeline/infrastructure/adapters/afip/unified_provider.py:215-227 | A JSF exception or an empty token/sign is followed at once by the Portal CF app page. |
| UnifiedAfip.UnifiedPasswordStepUsesCuitPage | src/senasa_pipeline/infrastructure/adapters/afip/unified_provider.py:209-213 | The CUIT POST uses the login page's step, and the password POST uses the CUIT page's step. The Referer is the CUIT action URL, and both POSTs send the configured CUIT. |
| UnifiedAfip.FallbackGatesAuthorization | src/senasa_pipeline/infrastructure/adapters/afip/unified_provider.py:228-236 | Unless the service check passes, the fallback fails and never requests the authorization URL. |
| UnifiedAfip.NonJsonServiceInfoRaises | src/senasa_pipeline/infrastructure/adapters/afip/unified_provider.py:147-165 | Two non-JSON descriptor bodies give {}, and the fallback raises "servicio senasa_traapi no disponible". |
| UnifiedAfip.NoJsonFallbackNeverAuthorizes | src/senasa_pipeline/infrastructure/adapters/afip/unified_provider.py:147-165 | As written: on a server with no JSON reply, the fallback always fails and never requests the authorization URL. |
| UnifiedAfip.JsonDescriptorReachesAuthorization | src/senasa_pipeline/infrastructure/adapters/afip/unified_provider.py:224-236 | As intended: when the first descriptor reply decodes to a description naming senasa_traapi, the next request is the authorization GET, and the run is AuthorizationRun's from there. |
| UnifiedAfip.UnifiedRun | src/senasa_pipeline/infrastructure/adapters/afip/unified_provider.py:203-239 | `get_token_sign` over the request trace. The JSF login GET is always the first request. JsfSuccessSkipsPortal, JsfFailureFallsBack and FallbackGatesAuthorization state when the fallback runs and what it returns. |
| UnifiedAfip.UnifiedAfipProvider.constructor | src/senasa_pipeline/infrastructure/adapters/afip/unified_provider.py:24-27 | Keeps the client, the CUIT and the password. |
| UnifiedAfip.UnifiedAfipProvider.PostPassword | src/senasa_pipeline/infrastructure/adapters/afip/unified_provider.py:82-122 | The client state and the result are UnifiedPasswordStep's. |
| UnifiedAfip.UnifiedAfipProvider.TryJsf | src/senasa_pipeline/infrastructure/adapters/afip/unified_provider.py:207-213 | The client state and the result are JsfAttempt's. |
| UnifiedAfip.UnifiedAfipProvider.PortalGetServiceInfo | src/senasa_pipeline/infrastructure/adapters/afip/unified_provider.py:134-165 | The client state and the result are ServiceInfoRun's. |
| UnifiedAfip.UnifiedAfipProvider.PortalGetAuthorization | src/senasa_pipeline/infrastructure/adapters/afip/unified_provider.py:167-200 | The client state and the result are AuthorizationRun's. |
| UnifiedAfip.UnifiedAfipProvider.PortalCfFallback | src/senasa_pipeline/infrastructure/adapters/afip/unified_provider.py:224-239 | The client state and the result are PortalFallback's. |
| UnifiedAfip.UnifiedAfipProvider.GetTokenSign | src/senasa_pipeline/infrastructure/adapters/afip/unified_provider.py:203-239 | The client state and the result are UnifiedRun's: JSF first, falling back to Portal CF. |

## Left out

**I/O, parsing and time**

- HTTP transport: the `requests`/`httpx` adapters and their cookie-jar internals are replaced by the `Http` oracle. A connection failure is a `TransportError`. The jar is merged with each reply's cookies; domains and paths are not modelled.
- HTML, JSON and URL parsing: BeautifulSoup trees, `resp.json()`/`json.loads` and `urljoin` (section 5.2 of RFC 3986) are oracles.
  - HTML: every response carries its parsed document. Attribute matching follows BeautifulSoup's `find`.
  - JSON: every response carries the JSON object its body decodes to, or None when the body is not JSON.
  - `urljoin` is a function parameter.
- Headers are modelled as an exact-match map. Header-name case-insensitivity is not modelled.
- Time:
  - The clock is an integer `now` in seconds and `ttl` is `ttl_hours * 3600`.
  - `astimezone(timezone.utc)` is the identity on such instants.
  - `time.sleep` is recorded as a sequence of pause lengths rather than taken. The pauses are exact reals, not floats.
- Logging: all `print`/`_log` diagnostics are left out.

**Collaborators and stores**

- Injected collaborators: the session use case runs against scripted collaborators rather than arbitrary implementations of its ports.
  - The provider's outcome and the consumer's probe answers, login outcome and post-login cookies are fixed by a script. This covers every exception the source can see.
  - The store is the in-memory store; `save` cannot fail, so an exception raised by `save` is not modelled.
  - In the two scenarios, the in-memory store stands in for the test's FakeStore; both have the same contract.
- `HttpClientPort.set_cookies` is never called by the core and is not modelled.
- `sqlite_store.py` is not part of this model. Its contract is that of the in-memory store, which is modelled.
- Copies: in Dafny maps are values, so the copies `dict(...)` makes in `load`/`save` are automatic. Later changes by the caller can never reach the store.

**Values and checks**

- Floats: `peso` is a real that is only ever copied.
- Value-object checks:
  - The checks are `assert`s, so they vanish under `python -O`. The model keeps them.
  - `str.isdigit` also accepts non-ASCII digits; the model accepts ASCII digits only.
- Domain.NewCuit: states ASCII digits only. A CUIT written with non-ASCII Unicode digits, which the source would accept, is rejected.
- UnifiedAfip.CheckAuthorization: checks only that "token" and "sign" are present, as the source does (line 197). Empty values pass on this path, unlike PortalCf.CheckTokenSign.
- PortalCf.AuthorizationPart, UnifiedAfip.ServiceInfoRun, UnifiedAfip.AuthorizationRun: a JSON body whose top level is not an object (`null`, `[]`, a number) counts as not JSON. In Python such a body decodes, so no retry follows. Portal CF then fails at `data.get` (portal_cf_provider.py:33). The model instead sends the retry requests, app and authorization again (two more requests), and fails or succeeds on the second body.
- Sequences.PySlice models Python slicing for any integers, including negative bounds. List's contract states the window only for non-negative arguments.
- UnifiedAfip.PortalFallback and UnifiedAfip.UnifiedRun: their own ensures state only the trace prefix and its first request. Their outcome is stated through the lemmas about them.

**Out of scope**

- Presentation, CLI, configuration, metrics, storage and notification adapters are not part of this model.
- Behaviour the code does not have is not modelled:
  - a redirect-chase loop;
  - meta-refresh or script redirects;
  - decoding of partial-postback redirects;
  - a hop budget;
  - transport-level 5xx retry.

**Where the code differs from its own documentation**

The model follows the code in each case:

- login_consumer.py line 1 reads `from __future__ annotations`, a syntax error that stops the module from importing. The model gives the intended logic of the rest of the file.
- With no account button, the documentation says login fails. The code instead skips the selection POST and still takes the cookies from the jar (SelectionOnlyWithButton).
- The documentation says the Portal CF retry refreshes the shell and the service descriptor. The code refreshes only `/app/` before the second authorization GET (PortalCfRequestOrder).
- In the unified provider, `servicio` with no `serviceName` fails the check, and a non-object `servicio` raises AttributeError. Both end as errors.
- The design promises that straight after a REFRESHED, a second call returns ALREADY_ACTIVE with the same expiry. In the code this holds only when the login left some cookies and the second call comes within the ttl: `session_exists` requires non-empty cookies (ensure_senasa_session.py:51). RefreshedThenAlreadyActive states the round trip under those conditions, and EmptyCookiesNotReused shows it failing with empty cookies.
- In the unified provider's fallback, every `resp.json()` raises AttributeError, because the port's `HttpResponse` (http_client_port.py:7-12) has no `json` method. The `except Exception` around each call catches it. As written, the descriptor answer is always `{}` and the fallback always ends with "servicio senasa_traapi no disponible" (NoJsonServiceInfoRaises, NoJsonFallbackNeverAuthorizes).

## Findings

| source | as written | input that shows it | evidently intended | confidence | as-written member | corrected member |
|---|---|---|---|---|---|---|
| src/senasa_pipeline/infrastructure/adapters/afip/unified_provider.py:147-165 | `resp.json()` on the port's HttpResponse, which has no `json` method, so every call raises and is caught. | JSF fails and the descriptor GET answers `{"servicio":{"serviceName":"senasa_traapi"}}`. Five requests are sent (app, descriptor, app, servicios, descriptor), the descriptor reads as `{}`, and the run fails with "servicio senasa_traapi no disponible". | Decode the descriptor body as JSON and go on to the authorization GET. | not executed | UnifiedAfip.NoJsonFallbackNeverAuthorizes | UnifiedAfip.JsonDescriptorReachesAuthorization |
