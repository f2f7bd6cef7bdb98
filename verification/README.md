# agentic_rag_go — a Dafny model of the RAG service core

agentic_rag_go is a retrieval-augmented generation service written in Go. It
accepts text over HTTP, splits it into chunks, embeds each chunk with a Gemini
embedding model and stores the chunks in a Qdrant collection. It can then
search that collection. It also answers chat messages through an agent whose
instruction carries the retrieved documents. This project models the service's
core and proves properties of the model. Nine modules follow the Go packages:

- `Base` holds optional values, results with error messages, Go's `uint64`
  conversion, opaque 32-bit floats and UUID strings. `Text` holds the
  `fmt`/`strings` behaviour the core relies on: `%d` rendering, ASCII case
  mapping, replacement and prefix trimming.
- `Http` holds requests, responses, `writeJSON`, `writeError`, `http.Error`
  and the CORS headers.
- `Middleware` is the admission gate (`internal/api/middleware.go`). It has
  the shared-secret check and the fixed-window, per-client request counter.
  The counter is a map of records over an explicit clock. `allow` and
  `cleanup` are each one atomic step, because the Go code holds the
  limiter's lock for the whole of each.
- `Embedding` is the guard around the embedding provider
  (`internal/embedding/service.go`). It covers the model-name default and
  the result-count checks.
- `Qdrant` is the vector-store client (`internal/vectorstore/qdrant/client.go`).
  It covers collection creation, point construction for `Upsert`, the
  hybrid query and the mapping of returned points to search results.
- `Agent` is the agent factory (`internal/agent/factory.go`). It covers the
  API-key fallback, up-front retrieval and the instruction with its numbered
  knowledge-base section.
- `Config` is configuration loading (`internal/config/config.go`). It covers
  the defaults, the `APP_` environment layer over the YAML file, the four
  unprefixed variables and the decoding of the overlay onto the
  configuration.
- `Server` is the REST server (`internal/api/server.go`). It covers
  construction, the route table and middleware order, the CORS wrapper, and
  the upload, search and chat handlers.

Every vendor SDK is an oracle: a function-typed parameter from the request
the code sends to the reply it gets. This covers the genai clients, the gRPC
Qdrant services, the ADK runner and session service, the langchaingo
splitter, the JSON decoder and the UUID generator. The clock is a parameter
in nanoseconds, the unit of Go durations, so the limiter's window is the
configured number of seconds times 10^9. Identifiers come from `newId(i)`,
the id generated for the `i`-th chunk.

Some behaviour of the code is easy to misread from its names and
annotations; the model follows the code:

- Only `/api/v1/...` paths are registered, plus `GET /health`, the three
  `/api/v1` aliases (`documents/upload`, `documents/search`,
  `conversations/chat`) and `GET /docs/` (server.go:93-115). There is no
  unversioned path: the API annotations' `@Router /upload_text` is relative
  to `@BasePath /api/v1` (server.go:7 and :193).
- The rate limiter keys clients by `RemoteAddr`, which is `host:port`,
  though the variable holding it is named `clientIP` (middleware.go:62).
  The server takes the key function as a parameter;
  `Middleware.RemoteAddrKey` is the code's. See Findings.
- The 401 and 429 rejections are written with `http.Error`
  (middleware.go:47 and :64). They are plain text whose text happens to be
  `{"error":...}`, not a JSON response (`Http.PlainError`). Only the
  handlers' own errors go through `writeError`, the JSON shape the
  `ErrorResponse` type documents (server.go:177-179).
- The four unprefixed variables are applied to the defaults before the
  overlay is decoded. So any YAML or `APP_` key for the same field overrides
  them: a YAML `vectorstore.url` beats `QDRANT_URL`, and so does
  `APP_VECTORSTORE_URL`.
- `handleSearch` falls back to the configured `top_k` without checking it is
  positive. Go's `uint64(topK)` then wraps a negative value.
  `Agent.Retrieve` does check it, and uses 10 otherwise.

## Model

| member | source | states |
|---|---|---|
| Base.ToUint64 | internal/api/server.go:322 | Go's `uint64(x)`: the identity on `0 .. 2^64-1`, a negative 64-bit value plus 2^64, always below 2^64 |
| Text.NatToDecimal | internal/api/server.go:241 | `%d` of an index is a non-empty string of digits with no leading zero except for 0 itself |
| Text.DecimalRoundTrip | internal/api/server.go:241 | reading the rendered digits back gives the index |
| Text.DecimalInjective | internal/api/server.go:241 | two indices render to the same text if and only if they are equal |
| Text.ToLower | internal/config/config.go:132 | lower-casing keeps the length and maps each character by ASCII case folding |
| Text.ReplaceAll | internal/config/config.go:131-133 | replacing with count -1 changes every occurrence of the character and nothing else |
| Text.ReplaceFirst | internal/config/config.go:131-133 | replacing with count 1 keeps the length, and text without the character is unchanged |
| Text.ReplaceFirstSplit | internal/config/config.go:131-133 | only the first occurrence is replaced: the text before and after it, later occurrences included, is kept |
| Text.ReplaceFirstIsReplaceAllWhenUnique | internal/config/config.go:131-133 | with at most one occurrence, replacing the first equals replacing all |
| Text.JoinedUpperRoundTrip | internal/config/config.go:128-134 | upper-cased section and field tags joined by `_`, then lower-cased with the first `_` made a dot, give `section.field` |
| Text.TrimPrefix | internal/config/config.go:132 | with the prefix present the result is what follows it; otherwise the text is unchanged |
| Text.DigitPrefixOf | internal/embedding/service.go:74-75 | a digit string followed by a non-digit is read back whole |
| Http.HeaderGet | internal/api/middleware.go:45 | `Header.Get` is the stored value, or "" when the header is absent |
| Http.WriteJson | internal/api/server.go:342-346 | the response has the given status, the JSON content type and the data as body |
| Http.WriteError | internal/api/server.go:349-351 | a JSON response with the given status whose body decodes back to exactly the message |
| Http.PlainError | internal/api/middleware.go:47 | `http.Error` gives the status and the text plus a newline, and is not a JSON response |
| Middleware.NewMiddleware | internal/api/middleware.go:27-36 | the gate holds the configured key, rate and window, and no client is known yet |
| Middleware.Auth | internal/api/middleware.go:38-53 | with no key configured every request reaches the handler; with a key, exactly an equal header reaches it and any other gets 401 |
| Middleware.AuthCallsNextIff | internal/api/middleware.go:40-51 | a rejected request's response does not depend on the handler; a request reaches the handler iff no key is set or the header is present and equal |
| Middleware.MissingHeaderRejected | internal/api/middleware.go:45-49 | with a key configured, a request without the header is rejected |
| Middleware.Allow | internal/api/middleware.go:72-102 | a new client, or one whose window ran out, is admitted with `rate-1` tokens and a window starting now; inside the window a token is spent iff one is left; a refusal changes nothing; other clients' records are untouched |
| Middleware.Cleanup | internal/api/middleware.go:104-115 | exactly the records idle strictly longer than five windows are removed; the rest are kept unchanged |
| Middleware.CleanupIdempotent | internal/api/middleware.go:104-115 | a second sweep at the same instant removes nothing more |
| Middleware.CleanupUnobservable | internal/api/middleware.go:72-115 | after a sweep, any later request gets the same answer and leaves the same record as without it |
| Middleware.TokensStayInRange | internal/api/middleware.go:72-115 | with a positive rate, `allow` and `cleanup` keep every budget within `0 .. rate-1` |
| Middleware.ClientsIndependent | internal/api/middleware.go:76-101 | serving one client never changes another's record or answer |
| Middleware.ReplayInsideWindow | internal/api/middleware.go:96-101 | inside one window a client with `n` tokens gets exactly its next `n` requests admitted and the window start stays put |
| Middleware.BurstThenReset | internal/api/middleware.go:72-102 | for rate R ≥ 1, R requests in one window are admitted, the (R+1)-th is refused, and the first after the window is admitted |
| Middleware.BoundaryAdmitsTwiceTheRate | internal/api/middleware.go:89-99 | a new client gets all `2*rate` requests admitted between `t0` and `t0+window`; `2*rate-1` of them fall in the two ticks `t0+window-1` and `t0+window` that straddle the window's end |
| Middleware.ReplayPrefixSplit | internal/api/middleware.go:72-102 | serving two request runs back to back equals serving the first and then the second from the state it left |
| Middleware.Admit | internal/api/middleware.go:57-69 | rate 0 passes the request and leaves the gate alone; otherwise `allow` decides between the handler's response and 429 and its new state is kept |
| Middleware.RateLimitAsWritten | internal/api/middleware.go:55-70 | the code as written: rate 0 passes every request; otherwise the limiter's state is advanced under the whole `host:port` address, and the answer is `next`'s when admitted and the 429 text otherwise |
| Middleware.PortsDodgeLimitAsWritten | internal/api/middleware.go:62-63 | with rate 1, one host connecting from two ports gets both requests admitted inside one window |
| Middleware.ClientHost | internal/api/middleware.go:62 | the client key is a prefix of the remote address |
| Middleware.ClientHostOfHostPort | internal/api/middleware.go:62 | the key of `host:port` is `host` when the port holds no colon |
| Middleware.RateLimit | internal/api/middleware.go:55-70 | rate 0 passes every request and leaves the client map untouched; otherwise the state is advanced under the client host, and the answer is `next`'s when admitted and the 429 text otherwise |
| Middleware.PortsShareBudget | internal/api/middleware.go:62-63 | keyed by host, two ports of one host share one budget: with rate 1 the second request is refused |
| Embedding.NewService | internal/embedding/service.go:24-41 | a client error is wrapped; otherwise the service uses the configured model, or `gemini-embedding-001` when none is set |
| Embedding.DefaultModelIsRequested | internal/embedding/service.go:32-35 | a service built without a model name asks the provider for the default model |
| Embedding.EmbedQuery | internal/embedding/service.go:44-59 | succeeds iff the provider returns at least one embedding, and then returns the first; a provider error is wrapped, and a reply without a list or with an empty one is "no embeddings returned" |
| Embedding.EmbedDocuments | internal/embedding/service.go:62-84 | succeeds iff the provider returns a list with exactly one embedding per text, and then returns them in provider order; a provider error is wrapped; any other failure is the count-mismatch message with the received count (0 for a reply without a list, so that case fails even with no texts) |
| Embedding.NoModelMeansDefault | internal/embedding/service.go:24-41 | a service built without a model name is the one built with `gemini-embedding-001` named, and answers every query and batch the same way |
| Embedding.QueryIsSingletonBatch | internal/embedding/service.go:44-84 | a query is sent as the one-text batch; when the provider answers it with one vector, the query's result is the batch's only vector, and unless it answers with more than one, the query succeeds iff the batch does |
| Embedding.MismatchNamesReceivedCount | internal/embedding/service.go:73-76 | the count-mismatch message carries the received count, and it can be read back from the message |
| Embedding.Close | internal/embedding/service.go:87-90 | closing always succeeds |
| Qdrant.CollectionSpec | internal/vectorstore/qdrant/client.go:71-90 | the created collection has exactly one dense vector, `dense`, of the configured size, and one sparse vector, `sparse` |
| Qdrant.EnsureCollection | internal/vectorstore/qdrant/client.go:57-96 | an existing collection gets no create call; a missing one gets exactly one, and its outcome is passed on; check and create errors are wrapped |
| Qdrant.EnsureIdempotent | internal/vectorstore/qdrant/client.go:57-68 | after one ensure the collection exists with the requested size, and a second ensure sends no create and changes nothing |
| Qdrant.Payload | internal/vectorstore/qdrant/client.go:125-133 | the payload keys are `content` plus the metadata keys, all string values; a metadata pair wins over the chunk text for `content` |
| Qdrant.Vectors | internal/vectorstore/qdrant/client.go:136-171 | a point always has `dense`, and has `sparse` iff the document has a sparse vector |
| Qdrant.ToPoint | internal/vectorstore/qdrant/client.go:117-154 | the point id is the document's id when it has one, the generated id otherwise, and never empty |
| Qdrant.BuildPoints | internal/vectorstore/qdrant/client.go:115-174 | exactly one point per document, in input order |
| Qdrant.Upsert | internal/vectorstore/qdrant/client.go:114-185 | one batch call carries all the points; the call's failure is wrapped and its success passed on |
| Qdrant.BuildQuery | internal/vectorstore/qdrant/client.go:196-246 | one dense prefetch, plus a sparse one iff a sparse vector is given; every prefetch and the fusion are limited to top-k, with payloads |
| Qdrant.ToResult | internal/vectorstore/qdrant/client.go:251-275 | `content` goes to the content field; the other non-empty string fields go to the payload, which never holds `content`; a non-UUID id gives "" |
| Qdrant.HybridSearch | internal/vectorstore/qdrant/client.go:196-278 | a query error is wrapped; otherwise one result per returned point, in the store's order |
| Qdrant.StoredPointReadsBack | internal/vectorstore/qdrant/client.go:259-272 | a stored point, once returned, reads back as its id, its content and exactly its non-empty metadata |
| Qdrant.MetadataContentWins | internal/vectorstore/qdrant/client.go:129-133 | a metadata key `content` replaces the chunk text, and search then shows the metadata value |
| Agent.NewFactory | internal/agent/factory.go:34-65 | errors from building the embedding service and from building the model are wrapped in that order; on success both use the effective API key |
| Agent.ApiKeyFallback | internal/agent/factory.go:36-39 | the configured key wins; without one, the `GOOGLE_API_KEY` value is used |
| Agent.EffectiveTopK | internal/agent/factory.go:76-79 | the count is always positive: the configured one when positive, ten otherwise |
| Agent.Retrieve | internal/agent/factory.go:75-96 | an embedding failure and a search failure are each wrapped; on success the documents are the store's results, in order, and the query is kept |
| Agent.RetrieveSkipsStoreOnEmbeddingFailure | internal/agent/factory.go:82-85 | when the query cannot be embedded, the outcome does not depend on the store |
| Agent.RetrieveAsksForTopK | internal/agent/factory.go:87-95 | on success the store was asked for the configured count, dense only, and every returned result is kept |
| Agent.BlocksAppend | internal/agent/factory.go:106-110 | the blocks of two document lists are the first list's blocks, then the second list's numbered on from the first |
| Agent.BlockOfEachDocument | internal/agent/factory.go:106-110 | document `i` appears after the blocks of the documents before it, under the heading numbered `first + i` |
| Agent.NextBlock | internal/agent/factory.go:106-110 | the blocks of the first `i+1` documents extend those of the first `i` by document `i`, numbered `i+1` |
| Agent.ContextEmptyIff | internal/agent/factory.go:103-111 | the knowledge-base section is empty iff nothing was retrieved or no document came back |
| Agent.BuildContext | internal/agent/factory.go:103-111 | the string built one write at a time is the header and the numbered document blocks, in order |
| Agent.Instruction | internal/agent/factory.go:114-124 | the instruction starts with the configured base and ends with the fixed strategy text |
| Agent.InstructionSectionReadsBack | internal/agent/factory.go:114-124 | the knowledge-base section can be cut back out of the instruction using the base's length alone |
| Agent.NewRunner | internal/agent/factory.go:101-152 | agent and runner errors are wrapped in that order; on success the agent has exactly one tool, web search, and the instruction built from the retrieved documents |
| Agent.NoDocumentsNoSection | internal/agent/factory.go:104-124 | without retrieved documents the instruction is the base and the strategy, separated by blank lines |
| Config.AllFieldsListed | internal/config/config.go:16-73 | every tagged field is among those decoded |
| Config.SectionTagPlain | internal/config/config.go:16-23 | section tags are lower-case and hold no underscore |
| Config.FieldTagLowerCase | internal/config/config.go:25-73 | field tags are lower-case |
| Config.GetSet | internal/config/config.go:16-73 | writing one field changes that field and no other |
| Config.Decode | internal/config/config.go:156-158 | a decoded value always has its field's type; a value that already has that type is kept unchanged |
| Config.UnmarshalFieldsSpec | internal/config/config.go:156-158 | decoding a list of fields succeeds iff each is decodable; then each listed field gets its expected value and the others are kept |
| Config.UnmarshalOverwritesPresentKeys | internal/config/config.go:155-158 | `Unmarshal` succeeds iff every present key converts; it then overwrites exactly the fields whose key is present |
| Config.UnmarshalWithoutFieldKeys | internal/config/config.go:156-158 | an overlay without field keys leaves the configuration as it was |
| Config.Getenv | internal/config/config.go:140 | an unset variable reads as "" |
| Config.GetenvFinds | internal/config/config.go:140-150 | a set variable reads as its value |
| Config.EnvLayerKeys | internal/config/config.go:128-137 | a key is in the environment layer iff some prefixed variable transforms to it |
| Config.EnvLayerValue | internal/config/config.go:128-137 | the one variable exporting a key gives that key its value, as a string |
| Config.Merged | internal/config/config.go:121-137 | the overlay holds the keys of both layers; the environment value wins where both have the key |
| Config.ApplySpecialEnv | internal/config/config.go:139-153 | `GOOGLE_API_KEY` fills only an empty key; `QDRANT_URL` replaces the URL; either tracing variable sets the endpoint (OTLP last) and enables tracing; no other field changes |
| Config.LoadWith | internal/config/config.go:77-161 | loading succeeds iff every overlay key converts; each field then holds the converted overlay value, or else what the defaults and the unprefixed variables gave it |
| Config.DefaultsWithoutSources | internal/config/config.go:81-126 | under any name transform, the one as written included: with no file, or an unreadable one, and no variables, loading returns the defaults table unchanged |
| Config.EnvOverridesYaml | internal/config/config.go:121-137 | under any name transform, the one as written included, the only prefixed variable whose name transforms to a field's key sets that field, whatever the file says; as written, no name transforms to a key whose tag has an underscore |
| Config.YamlUsedWithoutEnv | internal/config/config.go:121-137 | under any name transform, the one as written included, a file value that no variable's name transforms to is decoded into its field |
| Config.SpecialEnvOnlyWithoutKey | internal/config/config.go:139-158 | under any name transform, the one as written included, a field that neither the file nor a prefixed variable names keeps what the unprefixed variables left in the defaults |
| Config.UnprefixedEnvContributesNothing | internal/config/config.go:130 | variables without the `APP_` prefix add nothing to the overlay |
| Config.OtelBeatsPhoenix | internal/config/config.go:146-153 | under any name transform, the one as written included: with both tracing variables set, the OTLP endpoint wins, tracing is on and nothing else changes |
| Config.TracingEnvApplied | internal/config/config.go:146-153 | the unprefixed step alone applies the later-applied OTLP endpoint |
| Config.EnvKeyAsWritten | internal/config/config.go:130-134 | the code as written: a transformed key never holds an underscore |
| Config.UnderscoreFieldsUnreachableAsWritten | internal/config/config.go:130-134 | as written, no variable reaches a field whose tag has an underscore, and that field keeps what the file or the unprefixed variables gave it |
| Config.NoFieldKeyIsDotted | internal/config/config.go:16-73 | no field's key is `model.embedding.model` |
| Config.EmbeddingModelIgnoredAsWritten | internal/config/config.go:130-134 | as written, `APP_MODEL_EMBEDDING_MODEL` is ignored and loading returns the defaults |
| Config.EmbeddingModelOverlayAsWritten | internal/config/config.go:130-134 | as written, that variable lands on the key `model.embedding.model` |
| Config.EmbeddingModelKeyAsWritten | internal/config/config.go:130-134 | as written, the transform maps `APP_MODEL_EMBEDDING_MODEL` to `model.embedding.model` |
| Config.EmbeddingModelEnvName | internal/config/config.go:28 | `APP_MODEL_EMBEDDING_MODEL` is the variable name for the embedding-model field, whose key is `model.embedding_model` |
| Config.EmbeddingModelKeyUnique | internal/config/config.go:16-73 | only the embedding-model field has the key `model.embedding_model` |
| Config.EveryFieldReachable | internal/config/config.go:128-134 | under the corrected transform, `APP_` plus the upper-cased section and field tags reaches every field's key |
| Config.TransformsAgreeOnSingleUnderscore | internal/config/config.go:130-134 | both transforms agree on names with at most one underscore after the prefix, so every name that works as written still works |
| Config.EmbeddingModelSetAsIntended | internal/config/config.go:130-134 | under the corrected transform the same variable sets the embedding model |
| Server.Respond | internal/api/server.go:342-351 | every handler ending is a JSON response with only the content-type header: 200 with the encoded value, or the exit status with an envelope that decodes to the message |
| Server.NewServer | internal/api/server.go:43-90 | client, collection and factory errors are wrapped in that order; success iff all three succeed; the gate has the configured key and rate, and the window in seconds turned into nanoseconds |
| Server.FreshServerAdmitsFirstRequest | internal/api/server.go:78-110 | on a server fresh from `NewServer`, the first protected request of any client that carries the key reaches its handler under either keying, and a positive rate leaves exactly that client's record, with `rate-1` tokens |
| Server.ChunkMetadata | internal/api/server.go:233-241 | chunk metadata is the caller's pairs, plus `source` when given, plus `chunk_index` as the decimal index, which overrides a caller pair of that name |
| Server.ChunkIndexReadsBack | internal/api/server.go:241 | a chunk's stored index reads back as its position, so indices within one upload are distinct |
| Server.StoreChunks | internal/api/server.go:218-264 | an embedding failure or a store failure gives 500 and no ids; otherwise chunk `i` is stored with embedding `i`, which is in range because the provider returned one per chunk |
| Server.Upload | internal/api/server.go:194-265 | bad body, empty text and zero chunks give 400; splitter, embedding and store failures give 500; a successful split goes on to store the chunks; every early exit has an error status |
| Server.EmptyTextRefusedUpFront | internal/api/server.go:201-204 | an empty text gets 400 whatever the splitter, provider and store would answer |
| Server.UploadReportsStoredIds | internal/api/server.go:226-264 | a successful upload reports one id per chunk; id `i` is that of the `i`-th point sent to the store, which holds index `i` |
| Server.ChunkReadsBack | internal/api/server.go:233-247 | a stored chunk reads back from search as its id, its text and exactly the metadata it was stored with |
| Server.SearchTopK | internal/api/server.go:310-313 | the request's count when positive, the configured count otherwise, unchecked |
| Server.SearchDefaultAgreesWithRetrieve | internal/api/server.go:310-313 | without a requested count, search asks for what the chat's retrieval asks for iff the configured count is positive |
| Server.Search | internal/api/server.go:298-339 | bad body and empty query give 400; embedding and search failures give 500; otherwise one item per store result, in order, with the payload as metadata |
| Server.ItemJson | internal/api/server.go:279-284 | `metadata` is written iff it is non-empty |
| Server.NegativeConfiguredTopKWraps | internal/api/server.go:310-322 | with no requested count, a negative configured count reaches the store as a count of at least 2^63 |
| Server.UserOf | internal/api/server.go:403-406 | the user is the request's, or `default_user` |
| Server.OpenSession | internal/api/server.go:411-425 | a given session id is kept and no session is created; otherwise one is created for the app and user, and its failure gives 500 |
| Server.AnswerAfterEvents | internal/api/server.go:445-458 | past a run of events, the stream's verdict is the rest's verdict, prefixed with the texts seen so far |
| Server.FoldStream | internal/api/server.go:443-458 | reading the stream item by item gives the stream's verdict: the first error, or the concatenated texts |
| Server.AnswerFailsIffStreamErrs | internal/api/server.go:445-458 | the answer fails iff the stream holds an error, and then with the first one; otherwise it is the event texts, in order |
| Server.FirstErrorExists | internal/api/server.go:445-449 | a stream with an error has a first error |
| Server.Converse | internal/api/server.go:427-463 | a retrieval failure only drops the documents; runner and stream errors give 500; otherwise the answer comes with the session used |
| Server.Chat | internal/api/server.go:390-464 | bad body and empty message give 400; a session failure ends the request; otherwise the conversation runs; a reply's session is non-empty when one was given |
| Server.GivenSessionKept | internal/api/server.go:411-425 | with a session id given, the session service is not consulted and the reply names that session |
| Server.RetrievalFailureTolerated | internal/api/server.go:428-439 | when retrieval fails the conversation goes on, with an instruction that has no knowledge-base section |
| Server.Handler | internal/api/server.go:98-110 | each protected route answers with JSON and only the content-type header |
| Server.HealthResponse | internal/api/server.go:156-161 | `handleHealth`: status 200, a JSON object holding only `status: healthy`, which does not read back as an error |
| Server.Protect | internal/api/server.go:98-110 | `rateLimit(auth(h))` with the limiter's client named by a key function (the source's is the whole `RemoteAddr`): a refused request gets 429 without the key check; an admitted one gets 401 or the handler, having spent its token either way |
| Server.ProtectKeyings | internal/api/server.go:98-110 | keyed by `RemoteAddr`, a protected route is wrapped by `rateLimit` as written; keyed by host, by the corrected wrapper |
| Server.Dispatch | internal/api/server.go:93-115 | unprotected routes leave the server unchanged; health answers `handleHealth`'s document, docs the documentation handler, a wrong method 405 and an unknown path 404; protected ones go through the gate under the given keying |
| Server.ServeHttp | internal/api/server.go:118-130 | `OPTIONS` gets 200 with the CORS headers before routing; everything else is routed and then given the CORS headers; with `Middleware.RemoteAddrKey` this is the source's server |
| Server.CorsOnEveryResponse | internal/api/server.go:118-130 | every response of the service carries the three CORS headers unchanged |
| Server.RateCheckedBeforeKey | internal/api/server.go:98-110 | under any keying, the source's included, an over-budget client gets 429 whatever key it sends, and its budget is unchanged |
| Server.WrongKeyStillSpends | internal/api/server.go:98-110 | under any keying, the source's included, a wrong key gets 401 but still spends a token |
| Server.ServeProtected | internal/api/server.go:98-130 | at a positive rate, a protected request is decided by `allow` under the client's key, whose new state is kept; a refusal is 429, and an admitted request with the key gets the handler's status and body |
| Server.PortsDodgeLimitThroughServer | internal/api/middleware.go:62-63 | through the whole server keyed by `RemoteAddr`, at rate 1 with no key, a second protected request from `host:p2` one tick after one from `host:p1` (`p1 != p2`) still gets its handler's answer |
| Server.PortsShareBudgetThroughServer | internal/api/middleware.go:62-63 | through the whole server keyed by host, the same second request gets 429 |
| Server.OnlyProtectedRoutesSpend | internal/api/server.go:93-130 | health, docs, preflight and unknown routes never touch the limiter |
| Server.RouteTable | internal/api/server.go:93-115 | `GET`/`HEAD /health` is health; `POST` to each protected path or its alias is that path's route; another method there is 405; a path outside the table and `/docs/` is unknown |
| Server.ServedByHandler | internal/api/server.go:98-110 | a protected request the limiter admits, carrying the key, gets its handler's status and body |
| Server.RoutesReachHandlers | internal/api/server.go:98-110 | through `ServeHTTP`, an admitted and keyed `POST` to the upload, search or chat path, or its alias, answers what `Upload`, `Search` or `Chat` answers |
| Server.FixedAnswers | internal/api/server.go:93-130 | through `ServeHTTP`, `GET` or `HEAD /health` answers the health document without touching the limiter (for `HEAD` the body is the one written, not one sent), a non-`POST` on a protected path gets 405, and an unknown path 404 |
| Server.AliasesShareHandlers | internal/api/server.go:105-110 | each versioned alias routes exactly like its original path |

## Left out

- Transport: HTTP listening (`Start`), `Server.Close`, the gRPC connection
  setup of the Qdrant client, and process start-up in `cmd/server/main.go`.
  They are I/O. Likewise the response to a `HEAD` request carries the body
  its handler wrote, which `net/http` discards on the wire.
- JSON encoding and decoding. Decoding a request body is an oracle with an
  error outcome. Encoding is a `Json` value; the trailing newline
  `json.Encoder` writes is not modelled.
- Text splitting is the splitter oracle, so no claim about chunk size or
  overlap is made. The recursive character splitter is outside this model.
- Reciprocal rank fusion runs inside the store. The query reply is an
  opaque, ordered list.
- Floating point: embedding values and scores are opaque 32-bit patterns,
  and `%.2f` is the `scoreText` oracle. The configuration's `float64`
  fields `temperature` and `min_score` are Dafny `real`s; the core only
  stores and copies them, and `real` does not round as `float64` does.
- The genai and ADK clients, the in-memory session service and the runner's
  internals are oracles. The runner's output is a finite sequence of events
  and errors.
- The UUID generator is an oracle indexed by chunk position.
- The `EmbeddingService` and `SessionService` accessors of the factory are
  plain field reads, used through the model's collaborators.
- Concurrency: the limiter's mutexes. `allow` and `cleanup` are atomic steps.
  No sweep is scheduled in the modelled code.
- The mux's finer behaviour: the `Allow` header on 405, the redirect of
  `/docs`, and path cleaning. The documentation pages are an oracle.
- Logging: the warnings for an unreadable YAML file and a failed retrieval,
  and the upload log line.
- Config.Decode: the decoding library's weak conversions between types are
  the `Coercion` oracle. Only same-type values are decoded exactly.
- Text.ToLower: ASCII case mapping only. Go's `strings.ToLower` maps every
  Unicode letter; for example U+212A KELVIN SIGN becomes `k`. So a variable
  name holding non-ASCII letters may reach a field in Go but not here.
- Config.Merged: the overlay is a flat map of dotted keys. The library's
  replacement of a whole sub-tree, when one key is a prefix of another, is
  not modelled.
- Config.LoadWith: integer fields are unbounded. The 64-bit range of Go's
  `int`, and overflow when the rate window becomes a duration, are not
  modelled.
- Config.LoadWith: two behaviours of the decoding library are not
  modelled. First, it matches keys to tags ignoring case, so a YAML
  `Model: {Name: x}` sets `model.name`; here only exact keys match. Second,
  it fails on a plain value at a section key (`APP_MODEL=x`) and on a
  nested map at a field key (as written, `APP_VECTORSTORE_URL_X=y`). Here
  such keys are ignored and loading succeeds.
- Config.UnmarshalOverwritesPresentKeys: holds for exact, flat keys only; the
  decoding library's case-insensitive matching and its failure on a value
  at the wrong nesting level are not modelled (see `Config.LoadWith`).
- Config.UnmarshalWithoutFieldKeys: "no field key" means no exact key. In Go, a
  key that differs from a field's only in case, or a plain value at a
  section key, changes the outcome (see `Config.LoadWith`).
- Server.NegativeConfiguredTopKWraps: stated only for configured values in
  the 64-bit range, which is where Go's `int` lives.

## Findings

| source | as written | input that shows it | evidently intended | confidence | as-written member | corrected member |
|---|---|---|---|---|---|---|
| internal/config/config.go:130-134 | the environment transform turns every `_` into a key separator | `APP_MODEL_EMBEDDING_MODEL=text-embedding-004` becomes key `model.embedding.model`, which no field has, so the embedding model keeps its default | only the `_` between section and field separates them, so `APP_MODEL_EMBEDDING_MODEL` sets `model.embedding_model` (and likewise `api_key`, `top_k`, `rate_limit`, …) | not executed | Config.EmbeddingModelIgnoredAsWritten | Config.EmbeddingModelSetAsIntended |
| internal/api/middleware.go:62-63 | the limiter keys clients by `RemoteAddr`, which includes the source port | with rate 1, requests from `10.0.0.1:1111` and `10.0.0.1:2222` in one window are both admitted | one budget per client host, so the second request is refused | not executed | Middleware.PortsDodgeLimitAsWritten | Middleware.PortsShareBudget |

Both halves are in the model. `Config.LoadWith` takes the name transform:
`Config.LoadAsWritten` uses `Config.EnvKeyAsWritten`, and `Config.Load`
uses `Config.EnvKey`, which replaces only the first underscore. The lemmas
about loading the defaults, the file, the variables and the tracing
endpoints hold for every transform; only `Config.EmbeddingModelSetAsIntended`
is about the corrected one alone. `Config.EveryFieldReachable` proves that
the corrected transform reaches every field.
`Config.UnderscoreFieldsUnreachableAsWritten` proves that the transform as
written reaches none whose tag has an underscore. Likewise `Server.Protect`,
`Server.Dispatch` and `Server.ServeHttp` take the limiter's key function:
`Middleware.RemoteAddrKey` is the source's keying and
`Middleware.ClientHost` the corrected one. `Server.ProtectKeyings` ties
each to its wrapper. The server-level pair
`Server.PortsDodgeLimitThroughServer` and
`Server.PortsShareBudgetThroughServer` shows the difference.
