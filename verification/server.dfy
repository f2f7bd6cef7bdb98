/** The REST server: construction from a configuration, the routing table
    with its middleware order, the CORS wrapper, and the three handlers
    (text upload, search and chat) with their validation, defaults and
    error envelopes.

    Each handler is a function from the raw request body and the answers
    of its collaborators (the JSON decoder, the text splitter, the embedding
    provider, the vector store, the session store, the agent runner and the
    id generator) to the response it writes. */
module Server {
  import opened Base
  import opened Http
  import Text
  import Config
  import Embedding
  import Qdrant
  import Agent
  import Middleware

  // ---------------------------------------------------------------------
  // Request and reply shapes

  datatype UploadRequest = UploadRequest(text: string, metadata: map<string, string>, source: string)

  datatype UploadReply = UploadReply(message: string, chunkCount: int, chunkIds: seq<string>)

  datatype SearchRequest = SearchRequest(query: string, topK: int)

  datatype SearchItem = SearchItem(id: string, content: string, score: Float32, metadata: map<string, string>)

  datatype ChatRequest = ChatRequest(message: string, sessionId: string, userId: string)

  datatype ChatReply = ChatReply(response: string, sessionId: string)

  /** A piece of an agent event's content; only its text matters here. */
  datatype Part = Part(text: string)

  /** An agent event; `content` is absent for events that carry none. */
  datatype Event = Event(content: Option<seq<Part>>)

  /** One step of the runner's stream: an event, or the error that ends it. */
  datatype StreamItem = EventItem(event: Event) | ErrorItem(msg: string)

  datatype SessionRequest = SessionRequest(appName: string, userId: string)

  /** The collaborators a handler consults. `newId(i)` is the identifier
      generated for the `i`-th chunk of an upload; `run` is the runner's
      event stream for a user, a session and a message; `docs` serves the
      API documentation pages. */
  datatype Collaborators = Collaborators(
    decodeUpload: string -> Result<UploadRequest>,
    decodeSearch: string -> Result<SearchRequest>,
    decodeChat: string -> Result<ChatRequest>,
    split: string -> Result<seq<string>>,
    provider: Embedding.Provider,
    newId: nat -> Uuid,
    upsertRpc: Qdrant.UpsertPoints -> Outcome,
    queryRpc: Qdrant.QueryRpc,
    createSession: SessionRequest -> Result<string>,
    builders: Agent.Builders,
    run: (Agent.Runner, string, string, string) -> seq<StreamItem>,
    scoreText: Agent.ScoreText,
    docs: Request -> Response)

  datatype Server = Server(cfg: Config.Config, factory: Agent.Factory, gate: Middleware.Gate)

  /** How a handler ends: with a value written as JSON with status 200, or
      early with an error status and the message of the error envelope. */
  datatype Handled<T> = Done(value: T) | Exit(status: int, msg: string)

  predicate IsErrorStatus(status: int) {
    status == StatusBadRequest || status == StatusInternalServerError
  }

  /** Writes a handler's ending: `writeJSON` with 200 for a value,
      `writeError` for an early exit. */
  function Respond<T>(h: Handled<T>, encode: T -> Json): (r: Response)
    ensures IsJsonResponse(r)
    ensures r.headers.Keys == {ContentType}
    ensures h.Done? ==> r.status == StatusOK && r.body == JsonBody(encode(h.value))
    ensures h.Exit? ==> r.status == h.status && ErrorMessage(r) == Some(h.msg)
  {
    if h.Done? then WriteJson(StatusOK, encode(h.value)) else WriteError(h.status, h.msg)
  }

  // ---------------------------------------------------------------------
  // Construction

  /** The limiter's clock counts nanoseconds, as Go durations do. */
  const NanosPerSecond := 1_000_000_000

  /** `NewServer`: connect to the store, make sure the collection exists,
      build the agent factory, then a gate with the configured key, rate and
      window (configured in seconds). `connectError` is the store client's
      construction error, if any. */
  function NewServer(cfg: Config.Config, env: Config.Env, connectError: Option<string>,
                     collections: Qdrant.CollectionsRpc, clients: Agent.Clients): (r: Result<Server>)
    ensures connectError.Some? ==> r == Err("failed to create qdrant client: " + connectError.value)
    ensures var ensured := Qdrant.EnsureCollection(collections, cfg.vectorStore.collection, cfg.vectorStore.vectorSize);
            connectError.None? && ensured.outcome.Fail? ==> r == Err("failed to ensure collection: " + ensured.outcome.msg)
    ensures var factory := Agent.NewFactory(cfg, env, clients);
            (connectError.None?
             && Qdrant.EnsureCollection(collections, cfg.vectorStore.collection, cfg.vectorStore.vectorSize).outcome.Pass?
             && factory.Err?)
            ==> r == Err("failed to create agent factory: " + factory.msg)
    ensures r.Ok? <==> connectError.None?
                       && Qdrant.EnsureCollection(collections, cfg.vectorStore.collection, cfg.vectorStore.vectorSize).outcome.Pass?
                       && Agent.NewFactory(cfg, env, clients).Ok?
    ensures r.Ok? ==> r.value.cfg == cfg && r.value.factory == Agent.NewFactory(cfg, env, clients).value
    ensures r.Ok? ==> r.value.gate.apiKey == cfg.server.apiKey && r.value.gate.limiter.clients == map[]
    ensures r.Ok? ==> r.value.gate.limiter.rate == cfg.server.rateLimit
                      && r.value.gate.limiter.window == cfg.server.rateWindow * NanosPerSecond
  {
    if connectError.Some? then Err("failed to create qdrant client: " + connectError.value)
    else
      var ensured := Qdrant.EnsureCollection(collections, cfg.vectorStore.collection, cfg.vectorStore.vectorSize);
      if ensured.outcome.Fail? then Err("failed to ensure collection: " + ensured.outcome.msg)
      else
        var factory := Agent.NewFactory(cfg, env, clients);
        if factory.Err? then Err("failed to create agent factory: " + factory.msg)
        else Ok(Server(cfg, factory.value,
                       Middleware.NewMiddleware(cfg.server.apiKey, cfg.server.rateLimit, cfg.server.rateWindow * NanosPerSecond)))
  }

  // ---------------------------------------------------------------------
  // Upload

  const UploadedMessage := "Text uploaded and chunked successfully"

  /** The metadata stored with chunk `i`: the caller's pairs, `source` when
      the request names one, and `chunk_index`, which wins over a caller
      pair of that name. */
  function ChunkMetadata(req: UploadRequest, i: nat): (m: map<string, string>)
    ensures m.Keys == req.metadata.Keys + {"chunk_index"} + (if req.source != "" then {"source"} else {})
    ensures m["chunk_index"] == Text.NatToDecimal(i)
    ensures req.source != "" ==> m["source"] == req.source
    ensures forall k :: k in req.metadata && k != "chunk_index" && !(k == "source" && req.source != "") ==> m[k] == req.metadata[k]
  {
    var withSource := if req.source != "" then req.metadata["source" := req.source] else req.metadata;
    withSource["chunk_index" := Text.NatToDecimal(i)]
  }

  /** The stored index of a chunk reads back as its position, so no two
      chunks of one upload carry the same index. */
  lemma ChunkIndexReadsBack(req: UploadRequest, i: nat, j: nat)
    ensures Text.DecimalValue(ChunkMetadata(req, i)["chunk_index"]) == i
    ensures ChunkMetadata(req, i)["chunk_index"] == ChunkMetadata(req, j)["chunk_index"] <==> i == j
  {
    Text.DecimalRoundTrip(i);
    Text.DecimalInjective(i, j);
  }

  /** The documents of an upload: chunk `i` with the `i`-th generated id,
      its metadata and the `i`-th embedding, dense only. Indexing the
      embeddings needs at least one per chunk. */
  function ChunkDocuments(chunks: seq<string>, embeddings: seq<Vector>, req: UploadRequest, newId: nat -> Uuid): (docs: seq<Qdrant.Document>)
    requires |chunks| <= |embeddings|
    ensures |docs| == |chunks|
    ensures forall i :: 0 <= i < |chunks| ==>
              docs[i] == Qdrant.Document(newId(i), chunks[i], ChunkMetadata(req, i), embeddings[i], None)
  {
    seq(|chunks|, i requires 0 <= i < |chunks| => Qdrant.Document(newId(i), chunks[i], ChunkMetadata(req, i), embeddings[i], None))
  }

  /** The ids of the documents, in order. */
  function Ids(docs: seq<Qdrant.Document>): (ids: seq<string>)
    ensures |ids| == |docs|
    ensures forall i :: 0 <= i < |docs| ==> ids[i] == docs[i].id
  {
    seq(|docs|, i requires 0 <= i < |docs| => docs[i].id)
  }

  /** Stores the chunks of an accepted, non-empty split: embed them all,
      then upsert them all; either failure ends the upload. */
  function StoreChunks(s: Server, c: Collaborators, req: UploadRequest, chunks: seq<string>): (r: Handled<UploadReply>)
    ensures var e := Embedding.EmbedDocuments(s.factory.embedding, c.provider, chunks);
            e.Err? ==> r == Exit(StatusInternalServerError, "Failed to generate embeddings: " + e.msg)
    ensures var e := Embedding.EmbedDocuments(s.factory.embedding, c.provider, chunks);
            e.Ok? ==>
              var docs := ChunkDocuments(chunks, e.value, req, c.newId);
              var stored := Qdrant.Upsert(s.cfg.vectorStore.collection, docs, c.newId, c.upsertRpc);
              && (stored.Fail? ==> r == Exit(StatusInternalServerError, "Failed to store documents: " + stored.msg))
              && (stored.Pass? ==> r == Done(UploadReply(UploadedMessage, |chunks|, Ids(docs))))
  {
    match Embedding.EmbedDocuments(s.factory.embedding, c.provider, chunks)
    case Err(msg) => Exit(StatusInternalServerError, "Failed to generate embeddings: " + msg)
    case Ok(embeddings) =>
      var docs := ChunkDocuments(chunks, embeddings, req, c.newId);
      match Qdrant.Upsert(s.cfg.vectorStore.collection, docs, c.newId, c.upsertRpc)
      case Fail(msg) => Exit(StatusInternalServerError, "Failed to store documents: " + msg)
      case Pass => Done(UploadReply(UploadedMessage, |chunks|, Ids(docs)))
  }

  /** `handleUploadText`, up to the reply it writes. */
  function Upload(s: Server, c: Collaborators, body: string): (r: Handled<UploadReply>)
    ensures c.decodeUpload(body).Err? ==> r == Exit(StatusBadRequest, "Invalid request body: " + c.decodeUpload(body).msg)
    ensures c.decodeUpload(body).Ok? && c.decodeUpload(body).value.text == "" ==> r == Exit(StatusBadRequest, "Text field is required")
    ensures var d := c.decodeUpload(body);
            d.Ok? && d.value.text != "" && c.split(d.value.text).Err? ==>
              r == Exit(StatusInternalServerError, "Failed to split text: " + c.split(d.value.text).msg)
    ensures var d := c.decodeUpload(body);
            d.Ok? && d.value.text != "" && c.split(d.value.text) == Ok([]) ==>
              r == Exit(StatusBadRequest, "No chunks generated from text")
    ensures var d := c.decodeUpload(body);
            d.Ok? && d.value.text != "" && c.split(d.value.text).Ok? && |c.split(d.value.text).value| > 0 ==>
              r == StoreChunks(s, c, d.value, c.split(d.value.text).value)
    ensures r.Exit? ==> IsErrorStatus(r.status)
  {
    match c.decodeUpload(body)
    case Err(msg) => Exit(StatusBadRequest, "Invalid request body: " + msg)
    case Ok(req) =>
      if req.text == "" then Exit(StatusBadRequest, "Text field is required")
      else
        match c.split(req.text)
        case Err(msg) => Exit(StatusInternalServerError, "Failed to split text: " + msg)
        case Ok(chunks) =>
          if |chunks| == 0 then Exit(StatusBadRequest, "No chunks generated from text")
          else StoreChunks(s, c, req, chunks)
  }

  function UploadJson(u: UploadReply): Json {
    JObject(map["message" := JString(u.message),
                "chunk_count" := JInt(u.chunkCount),
                "chunk_ids" := JArray(seq(|u.chunkIds|, i requires 0 <= i < |u.chunkIds| => JString(u.chunkIds[i])))])
  }

  /** Text is checked before anything else is consulted: an empty text is
      refused the same way whatever the splitter, the provider and the
      store would have answered. */
  lemma EmptyTextRefusedUpFront(s: Server, c1: Collaborators, c2: Collaborators, body: string)
    requires c1.decodeUpload == c2.decodeUpload
    requires c1.decodeUpload(body).Ok? && c1.decodeUpload(body).value.text == ""
    ensures Upload(s, c1, body) == Upload(s, c2, body) == Exit(StatusBadRequest, "Text field is required")
  {
  }

  /** A successful upload reports one id per chunk, and the `i`-th id is
      the id of the `i`-th point sent to the store, which holds chunk `i`
      and the index `i`. */
  lemma {:induction false} UploadReportsStoredIds(s: Server, c: Collaborators, body: string)
    requires Upload(s, c, body).Done?
    ensures var req := c.decodeUpload(body).value;
            var chunks := c.split(req.text).value;
            var e := Embedding.EmbedDocuments(s.factory.embedding, c.provider, chunks).value;
            var points := Qdrant.BuildPoints(ChunkDocuments(chunks, e, req, c.newId), c.newId);
            var reply := Upload(s, c, body).value;
            && c.upsertRpc(Qdrant.UpsertPoints(s.cfg.vectorStore.collection, points)).Pass?
            && reply.chunkCount == |reply.chunkIds| == |points| == |chunks| > 0
            && (forall i :: 0 <= i < |points| ==> points[i].id == reply.chunkIds[i])
            && (forall i :: 0 <= i < |points| ==>
                  points[i].payload["chunk_index"] == Qdrant.StringValue(Text.NatToDecimal(i)))
  {
    var req := c.decodeUpload(body).value;
    var chunks := c.split(req.text).value;
    var e := Embedding.EmbedDocuments(s.factory.embedding, c.provider, chunks).value;
    var docs := ChunkDocuments(chunks, e, req, c.newId);
    var points := Qdrant.BuildPoints(docs, c.newId);
    forall i | 0 <= i < |points|
      ensures points[i].id == Upload(s, c, body).value.chunkIds[i]
      ensures points[i].payload["chunk_index"] == Qdrant.StringValue(Text.NatToDecimal(i))
    {
      assert points[i] == Qdrant.ToPoint(docs[i], i, c.newId);
      assert docs[i].id == c.newId(i);
      assert "chunk_index" in docs[i].metadata;
    }
  }

  /** Each stored chunk reads back from a search as its text together with
      the metadata it was stored with, when the caller sent no `content`
      key and no empty value. */
  lemma ChunkReadsBack(req: UploadRequest, chunk: string, embedding: Vector, i: nat, newId: nat -> Uuid, score: Float32)
    requires "content" !in req.metadata
    requires forall k :: k in req.metadata ==> req.metadata[k] != ""
    ensures var doc := Qdrant.Document(newId(i), chunk, ChunkMetadata(req, i), embedding, None);
            var p := Qdrant.ToPoint(doc, i, newId);
            var r := Qdrant.ToResult(Qdrant.ScoredPoint(Qdrant.UuidId(p.id), score, p.payload));
            r.id == newId(i) && r.content == chunk && r.payload == ChunkMetadata(req, i)
  {
    var m := ChunkMetadata(req, i);
    ChunkMetadataPlain(req, i);
    var doc := Qdrant.Document(newId(i), chunk, m, embedding, None);
    Qdrant.StoredPointReadsBack(doc, i, newId, score);
    assert (map k | k in m && m[k] != "" :: m[k]) == m;
  }

  /** Chunk metadata without caller-supplied `content` or empty values has
      neither itself. */
  lemma ChunkMetadataPlain(req: UploadRequest, i: nat)
    requires "content" !in req.metadata
    requires forall k :: k in req.metadata ==> req.metadata[k] != ""
    ensures "content" !in ChunkMetadata(req, i)
    ensures forall k :: k in ChunkMetadata(req, i) ==> ChunkMetadata(req, i)[k] != ""
  {
    assert "content" != "chunk_index" && "content" != "source";
  }

  // ---------------------------------------------------------------------
  // Search

  /** The number of results asked for: the request's when positive,
      otherwise the configured one, taken as it is. */
  function SearchTopK(requested: int, configured: int): (k: int)
    ensures requested > 0 ==> k == requested
    ensures requested <= 0 ==> k == configured
  {
    if requested <= 0 then configured else requested
  }

  /** The reply item for a search hit: its fields as they are, the payload
      as the metadata. */
  function ToItem(h: Qdrant.SearchResult): SearchItem {
    SearchItem(h.id, h.content, h.score, h.payload)
  }

  /** `handleSearch`, up to the items it writes. The count is converted to
      an unsigned 64-bit number on the way to the store. */
  function Search(s: Server, c: Collaborators, body: string): (r: Handled<seq<SearchItem>>)
    ensures c.decodeSearch(body).Err? ==> r == Exit(StatusBadRequest, "Invalid request body: " + c.decodeSearch(body).msg)
    ensures c.decodeSearch(body).Ok? && c.decodeSearch(body).value.query == "" ==> r == Exit(StatusBadRequest, "Query field is required")
    ensures var d := c.decodeSearch(body);
            d.Ok? && d.value.query != "" ==>
              var v := Embedding.EmbedQuery(s.factory.embedding, c.provider, d.value.query);
              v.Err? ==> r == Exit(StatusInternalServerError, "Failed to generate query embedding: " + v.msg)
    ensures var d := c.decodeSearch(body);
            d.Ok? && d.value.query != "" ==>
              var v := Embedding.EmbedQuery(s.factory.embedding, c.provider, d.value.query);
              v.Ok? ==>
              var found := Qdrant.HybridSearch(s.cfg.vectorStore.collection, v.value, None,
                                               ToUint64(SearchTopK(d.value.topK, s.cfg.retriever.topK)), c.queryRpc);
              && (found.Err? ==> r == Exit(StatusInternalServerError, "Search failed: " + found.msg))
              && (found.Ok? ==> r.Done? && |r.value| == |found.value|
                                && forall i :: 0 <= i < |found.value| ==> r.value[i] == ToItem(found.value[i]))
    ensures r.Exit? ==> IsErrorStatus(r.status)
  {
    match c.decodeSearch(body)
    case Err(msg) => Exit(StatusBadRequest, "Invalid request body: " + msg)
    case Ok(req) =>
      if req.query == "" then Exit(StatusBadRequest, "Query field is required")
      else
        match Embedding.EmbedQuery(s.factory.embedding, c.provider, req.query)
        case Err(msg) => Exit(StatusInternalServerError, "Failed to generate query embedding: " + msg)
        case Ok(vector) =>
          var topK := SearchTopK(req.topK, s.cfg.retriever.topK);
          match Qdrant.HybridSearch(s.cfg.vectorStore.collection, vector, None, ToUint64(topK), c.queryRpc)
          case Err(msg) => Exit(StatusInternalServerError, "Search failed: " + msg)
          case Ok(results) => Done(seq(|results|, i requires 0 <= i < |results| => ToItem(results[i])))
  }

  /** A reply item; `metadata` is omitted when empty. */
  function ItemJson(item: SearchItem): (j: Json)
    ensures j.JObject? && {"id", "content", "score"} <= j.fields.Keys
    ensures "metadata" in j.fields <==> |item.metadata| > 0
    ensures "metadata" in j.fields ==>
              j.fields["metadata"] == JObject(map k | k in item.metadata :: JString(item.metadata[k]))
  {
    var fields := map["id" := JString(item.id), "content" := JString(item.content), "score" := JFloat(item.score)];
    if |item.metadata| == 0 then JObject(fields)
    else JObject(fields["metadata" := JObject(map k | k in item.metadata :: JString(item.metadata[k]))])
  }

  function SearchJson(items: seq<SearchItem>): Json {
    JObject(map["results" := JArray(seq(|items|, i requires 0 <= i < |items| => ItemJson(items[i])))])
  }

  /** A configured count of zero or less reaches the store unguarded when
      the request gives none: a negative one (a 64-bit Go int) wraps to a
      count of at least 2^63. */
  lemma NegativeConfiguredTopKWraps(requested: int, configured: int)
    requires requested <= 0 && -Two64 / 2 <= configured < 0
    ensures ToUint64(SearchTopK(requested, configured)) == Two64 + configured
    ensures ToUint64(SearchTopK(requested, configured)) >= Two64 / 2
  {
  }

  /** Search and the chat's retrieval fall back to the same count exactly
      when the configured count is positive. */
  lemma SearchDefaultAgreesWithRetrieve(requested: int, configured: int)
    requires requested <= 0
    ensures SearchTopK(requested, configured) == Agent.EffectiveTopK(configured) <==> configured > 0
  {
  }

  // ---------------------------------------------------------------------
  // Chat

  const AppName := "agentic_rag_go"
  const DefaultUser := "default_user"

  /** The user a conversation is held for: the request's, or the default. */
  function UserOf(req: ChatRequest): (u: string)
    ensures u != ""
    ensures req.userId != "" ==> u == req.userId
  {
    if req.userId == "" then DefaultUser else req.userId
  }

  /** The session of a conversation: the request's, or a new one created
      for the application and the user. */
  function OpenSession(c: Collaborators, req: ChatRequest): (r: Handled<string>)
    ensures req.sessionId != "" ==> r == Done(req.sessionId)
    ensures var created := c.createSession(SessionRequest(AppName, UserOf(req)));
            req.sessionId == "" ==>
              && (created.Err? ==> r == Exit(StatusInternalServerError, "Failed to create session: " + created.msg))
              && (created.Ok? ==> r == Done(created.value))
  {
    if req.sessionId != "" then Done(req.sessionId)
    else
      match c.createSession(SessionRequest(AppName, UserOf(req)))
      case Err(msg) => Exit(StatusInternalServerError, "Failed to create session: " + msg)
      case Ok(id) => Done(id)
  }

  /** The text of an event: its non-empty part texts in order; nothing for
      an event without content. */
  function EventText(e: Event): string {
    if e.content.None? then "" else PartsText(e.content.value)
  }

  function PartsText(parts: seq<Part>): string
    decreases |parts|
  {
    if |parts| == 0 then ""
    else (if parts[0].text != "" then parts[0].text else "") + PartsText(parts[1..])
  }

  /** The stream's verdict, read from the front: the first error ends it,
      otherwise the texts of all events, in order. */
  function Answer(items: seq<StreamItem>): (r: Result<string>)
    decreases |items|
  {
    if |items| == 0 then Ok("")
    else if items[0].ErrorItem? then Err(items[0].msg)
    else
      var rest := Answer(items[1..]);
      if rest.Err? then rest else Ok(EventText(items[0].event) + rest.value)
  }

  predicate NoErrors(items: seq<StreamItem>) {
    forall i :: 0 <= i < |items| ==> items[i].EventItem?
  }

  /** The text an item contributes: an event's text, nothing for an error. */
  function ItemText(item: StreamItem): string {
    if item.EventItem? then EventText(item.event) else ""
  }

  /** The texts of the events of a stream, gathered from the end. */
  function Texts(items: seq<StreamItem>): string
    decreases |items|
  {
    if |items| == 0 then "" else Texts(items[..|items| - 1]) + ItemText(items[|items| - 1])
  }

  /** A stream that starts with an event: that event's text ahead of the
      rest's verdict. */
  lemma AnswerCons(items: seq<StreamItem>)
    requires |items| > 0 && items[0].EventItem?
    ensures Answer(items) == if Answer(items[1..]).Err? then Answer(items[1..]) else Ok(ItemText(items[0]) + Answer(items[1..]).value)
  {
  }

  /** The verdict from an event onwards: its text ahead of the verdict
      from the next item. */
  lemma AnswerFrom(items: seq<StreamItem>, i: nat)
    requires 0 < i <= |items| && items[i - 1].EventItem?
    ensures var rest := Answer(items[i..]);
            Answer(items[i - 1..]) == if rest.Err? then rest else Ok(ItemText(items[i - 1]) + rest.value)
  {
    assert items[i - 1..][1..] == items[i..];
    AnswerCons(items[i - 1..]);
  }

  /** The texts of a prefix one item longer. */
  lemma TextsSnoc(items: seq<StreamItem>, i: nat)
    requires 0 < i <= |items|
    ensures Texts(items[..i]) == Texts(items[..i - 1]) + ItemText(items[i - 1])
  {
    assert items[..i][..i - 1] == items[..i - 1];
  }

  /** An error-free prefix ends with an event, and is error-free without it. */
  lemma NoErrorsInit(items: seq<StreamItem>, i: nat)
    requires 0 < i <= |items| && NoErrors(items[..i])
    ensures items[i - 1].EventItem? && NoErrors(items[..i - 1])
  {
    assert items[i - 1] == items[..i][i - 1];
    assert forall j :: 0 <= j < i - 1 ==> items[..i - 1][j] == items[..i][j];
  }

  /** One step of the prefix argument on verdicts alone: if the whole
      verdict is the verdict `b` from some item prefixed with `t`, and `b`
      is the verdict `rest` of the next item prefixed with `x`, then the
      whole verdict is `rest` prefixed with `t + x`. */
  lemma PrefixedVerdict(whole: Result<string>, b: Result<string>, rest: Result<string>, t: string, x: string)
    requires b.Err? ==> whole == b
    requires b.Ok? ==> whole == Ok(t + b.value)
    requires b == if rest.Err? then rest else Ok(x + rest.value)
    ensures rest.Err? ==> whole == rest
    ensures rest.Ok? ==> whole == Ok((t + x) + rest.value)
  {
    if rest.Ok? {
      assert t + (x + rest.value) == (t + x) + rest.value;
    }
  }

  /** Before any error the verdict is decided by the rest of the stream,
      prefixed with the texts seen so far. */
  lemma {:induction false} AnswerAfterEvents(items: seq<StreamItem>, i: nat)
    requires i <= |items| && NoErrors(items[..i])
    ensures var rest := Answer(items[i..]);
            && (rest.Err? ==> Answer(items) == rest)
            && (rest.Ok? ==> Answer(items) == Ok(Texts(items[..i]) + rest.value))
    decreases i
  {
    if i == 0 {
      assert items[0..] == items;
      assert Texts(items[..0]) == "";
      var rest := Answer(items);
      if rest.Ok? {
        assert "" + rest.value == rest.value;
      }
    } else {
      NoErrorsInit(items, i);
      AnswerAfterEvents(items, i - 1);
      AnswerFrom(items, i);
      TextsSnoc(items, i);
      PrefixedVerdict(Answer(items), Answer(items[i - 1..]), Answer(items[i..]),
                      Texts(items[..i - 1]), ItemText(items[i - 1]));
    }
  }

  /** The stream read the way the handler reads it: item by item, stopping
      at the first error, appending the non-empty part texts of every event
      that has content. */
  method FoldStream(items: seq<StreamItem>) returns (r: Result<string>)
    ensures r == Answer(items)
  {
    var text := "";
    var i := 0;
    while i < |items|
      invariant 0 <= i <= |items|
      invariant NoErrors(items[..i])
      invariant text == Texts(items[..i])
    {
      if items[i].ErrorItem? {
        AnswerAfterEvents(items, i);
        return Err(items[i].msg);
      }
      if items[i].event.content.Some? {
        text := text + PartsText(items[i].event.content.value);
      }
      assert items[..i + 1][..i] == items[..i];
      i := i + 1;
    }
    AnswerAfterEvents(items, i);
    assert items[i..] == [];
    assert items[..i] == items;
    assert text + "" == text;
    return Ok(text);
  }

  /** An error anywhere in the stream fails the whole answer with the first
      error; without one the answer is every event's text, in order. */
  lemma AnswerFailsIffStreamErrs(items: seq<StreamItem>)
    ensures Answer(items).Err? <==> !NoErrors(items)
    ensures NoErrors(items) ==> Answer(items) == Ok(Texts(items))
    ensures forall i :: 0 <= i < |items| && items[i].ErrorItem? && NoErrors(items[..i]) ==> Answer(items) == Err(items[i].msg)
  {
    forall i | 0 <= i < |items| && items[i].ErrorItem? && NoErrors(items[..i])
      ensures Answer(items) == Err(items[i].msg)
    {
      AnswerAfterEvents(items, i);
    }
    if NoErrors(items) {
      AnswerAfterEvents(items, |items|);
      assert items[|items|..] == [];
      assert items[..|items|] == items;
      assert Texts(items) + "" == Texts(items);
    } else {
      var i :| 0 <= i < |items| && items[i].ErrorItem?;
      FirstErrorExists(items, i);
    }
  }

  /** Where some item is an error, some error has only events before it. */
  lemma {:induction false} FirstErrorExists(items: seq<StreamItem>, i: nat)
    requires i < |items| && items[i].ErrorItem?
    ensures exists j :: 0 <= j <= i && items[j].ErrorItem? && NoErrors(items[..j])
    decreases i
  {
    if NoErrors(items[..i]) {
    } else {
      var k :| 0 <= k < i && items[..i][k].ErrorItem?;
      FirstErrorExists(items, k);
    }
  }

  /** The context the runner is built with: the retrieved documents, or
      none when retrieval failed. */
  function ContextOf(r: Result<Agent.RetrievedContext>): Option<Agent.RetrievedContext> {
    if r.Ok? then Some(r.value) else None
  }

  /** The conversation once the session is known: retrieve (a failure only
      leaves the agent without documents), build the runner, run it. */
  function Converse(s: Server, c: Collaborators, message: string, user: string, session: string): (r: Handled<ChatReply>)
    ensures var context := ContextOf(Agent.Retrieve(s.factory, c.provider, c.queryRpc, message));
            var runner := Agent.NewRunner(s.factory, AppName, context, c.scoreText, c.builders);
            && (runner.Err? ==> r == Exit(StatusInternalServerError, "Failed to create runner: " + runner.msg))
            && (runner.Ok? && Answer(c.run(runner.value, user, session, message)).Err? ==>
                  r == Exit(StatusInternalServerError, "Agent error: " + Answer(c.run(runner.value, user, session, message)).msg))
            && (runner.Ok? && Answer(c.run(runner.value, user, session, message)).Ok? ==>
                  r == Done(ChatReply(Answer(c.run(runner.value, user, session, message)).value, session)))
  {
    var context := ContextOf(Agent.Retrieve(s.factory, c.provider, c.queryRpc, message));
    match Agent.NewRunner(s.factory, AppName, context, c.scoreText, c.builders)
    case Err(msg) => Exit(StatusInternalServerError, "Failed to create runner: " + msg)
    case Ok(runner) =>
      match Answer(c.run(runner, user, session, message))
      case Err(msg) => Exit(StatusInternalServerError, "Agent error: " + msg)
      case Ok(text) => Done(ChatReply(text, session))
  }

  /** `handleChat`, up to the reply it writes. */
  function Chat(s: Server, c: Collaborators, body: string): (r: Handled<ChatReply>)
    ensures c.decodeChat(body).Err? ==> r == Exit(StatusBadRequest, "Invalid request body: " + c.decodeChat(body).msg)
    ensures c.decodeChat(body).Ok? && c.decodeChat(body).value.message == "" ==> r == Exit(StatusBadRequest, "Message field is required")
    ensures var d := c.decodeChat(body);
            d.Ok? && d.value.message != "" && OpenSession(c, d.value).Exit? ==>
              r == Exit(OpenSession(c, d.value).status, OpenSession(c, d.value).msg)
    ensures var d := c.decodeChat(body);
            d.Ok? && d.value.message != "" && OpenSession(c, d.value).Done? ==>
              r == Converse(s, c, d.value.message, UserOf(d.value), OpenSession(c, d.value).value)
    ensures r.Done? ==> r.value.sessionId != "" || c.decodeChat(body).value.sessionId == ""
  {
    match c.decodeChat(body)
    case Err(msg) => Exit(StatusBadRequest, "Invalid request body: " + msg)
    case Ok(req) =>
      if req.message == "" then Exit(StatusBadRequest, "Message field is required")
      else
        match OpenSession(c, req)
        case Exit(status, msg) => Exit(status, msg)
        case Done(session) => Converse(s, c, req.message, UserOf(req), session)
  }

  function ChatJson(reply: ChatReply): Json {
    JObject(map["response" := JString(reply.response), "session_id" := JString(reply.sessionId)])
  }

  /** A request that names its session continues it: no session is created
      and the reply names the same session. */
  lemma GivenSessionKept(s: Server, c1: Collaborators, c2: Collaborators, body: string)
    requires c1 == c2.(createSession := c1.createSession)
    requires c1.decodeChat(body).Ok? && c1.decodeChat(body).value.sessionId != ""
    ensures Chat(s, c1, body) == Chat(s, c2, body)
    ensures Chat(s, c1, body).Done? ==> Chat(s, c1, body).value.sessionId == c1.decodeChat(body).value.sessionId
  {
  }

  /** A failed retrieval does not end the conversation: the agent is built
      without documents, so its instruction has no knowledge-base section. */
  lemma RetrievalFailureTolerated(s: Server, c: Collaborators, message: string, user: string, session: string)
    requires Agent.Retrieve(s.factory, c.provider, c.queryRpc, message).Err?
    ensures Converse(s, c, message, user, session)
            == match Agent.NewRunner(s.factory, AppName, None, c.scoreText, c.builders)
               case Err(msg) => Exit(StatusInternalServerError, "Failed to create runner: " + msg)
               case Ok(runner) =>
                 match Answer(c.run(runner, user, session, message))
                 case Err(msg) => Exit(StatusInternalServerError, "Agent error: " + msg)
                 case Ok(text) => Done(ChatReply(text, session))
    ensures var runner := Agent.NewRunner(s.factory, AppName, None, c.scoreText, c.builders);
            runner.Ok? ==> runner.value.agent.instruction == s.factory.cfg.agent.instruction + "\n\n\n\n" + Agent.Strategy
  {
    var runner := Agent.NewRunner(s.factory, AppName, None, c.scoreText, c.builders);
    if runner.Ok? {
      Agent.NoDocumentsNoSection(s.factory, AppName, c.scoreText, c.builders);
    }
  }

  // ---------------------------------------------------------------------
  // Routing

  /** The paths under the `/api/v1` prefix, each with its alias. */
  const UploadPath := "/api/v1/upload_text"
  const UploadAlias := "/api/v1/documents/upload"
  const SearchPath := "/api/v1/search"
  const SearchAlias := "/api/v1/documents/search"
  const ChatPath := "/api/v1/chat"
  const ChatAlias := "/api/v1/conversations/chat"

  /** What the route table does with a method and a path. `GET` patterns
      also answer `HEAD`; a known path asked with another method is
      refused with 405. */
  datatype Route = HealthRoute | UploadRoute | SearchRoute | ChatRoute | DocsRoute | WrongMethod | Unknown

  predicate IsGet(verb: string) {
    verb == "GET" || verb == "HEAD"
  }

  function RouteOf(verb: string, path: string): Route {
    if path == "/health" then (if IsGet(verb) then HealthRoute else WrongMethod)
    else if path == UploadPath || path == UploadAlias then
      (if verb == "POST" then UploadRoute else WrongMethod)
    else if path == SearchPath || path == SearchAlias then
      (if verb == "POST" then SearchRoute else WrongMethod)
    else if path == ChatPath || path == ChatAlias then
      (if verb == "POST" then ChatRoute else WrongMethod)
    else if "/docs/" <= path then (if IsGet(verb) then DocsRoute else WrongMethod)
    else Unknown
  }

  predicate Protected(route: Route) {
    route == UploadRoute || route == SearchRoute || route == ChatRoute
  }

  /** The handler behind a protected route. */
  function Handler(s: Server, c: Collaborators, route: Route, req: Request): (r: Response)
    requires Protected(route)
    ensures IsJsonResponse(r) && r.headers.Keys == {ContentType}
  {
    match route
    case UploadRoute => Respond(Upload(s, c, req.body), UploadJson)
    case SearchRoute => Respond(Search(s, c, req.body), SearchJson)
    case ChatRoute => Respond(Chat(s, c, req.body), ChatJson)
  }

  /** The header names a response of the service sets itself. */
  const ResponseHeaderNames := {ContentType, "X-Content-Type-Options"}

  /** `rateLimit(auth(h))`: the limiter first, then the key check, then the
      handler. A request the limiter refuses never reaches the key check;
      one it admits has spent a token whatever the key check decides.
      `keyOf` names the limiter's client: `Middleware.RemoteAddrKey` is the
      source's keying, `Middleware.ClientHost` the corrected one. */
  function Protect(s: Server, c: Collaborators, keyOf: Middleware.KeyOf, route: Route, req: Request, now: int): (r: (Response, Middleware.Gate))
    requires Protected(route)
    ensures var d := Middleware.Allow(s.gate.limiter, keyOf(req.remoteAddr), now);
            var admitted := s.gate.limiter.rate == 0 || d.allowed;
            && (!admitted ==> r.0 == Middleware.RateLimitedResponse())
            && (admitted && Middleware.Authorized(s.gate.apiKey, req) ==> r.0 == Handler(s, c, route, req))
            && (admitted && !Middleware.Authorized(s.gate.apiKey, req) ==> r.0 == Middleware.UnauthorizedResponse())
            && r.1.apiKey == s.gate.apiKey
            && r.1.limiter == if s.gate.limiter.rate == 0 then s.gate.limiter else d.limiter
    ensures r.0.headers.Keys <= ResponseHeaderNames
  {
    Middleware.Admit(s.gate, keyOf(req.remoteAddr), req, now, Guarded(s, c, route))
  }

  /** The key check in front of a protected route's handler. */
  function Guarded(s: Server, c: Collaborators, route: Route): Request -> Response
    requires Protected(route)
  {
    (q: Request) => Middleware.Auth(s.gate.apiKey, (q': Request) => Handler(s, c, route, q'), q)
  }

  /** Under the source's keying the protected routes are wrapped by
      `rateLimit` exactly as written; under host keying, by the corrected
      wrapper. */
  lemma ProtectKeyings(s: Server, c: Collaborators, route: Route, req: Request, now: int)
    requires Protected(route)
    ensures Protect(s, c, Middleware.RemoteAddrKey, route, req, now)
            == Middleware.RateLimitAsWritten(s.gate, req, now, Guarded(s, c, route))
    ensures Protect(s, c, Middleware.ClientHost, route, req, now)
            == Middleware.RateLimit(s.gate, req, now, Guarded(s, c, route))
  {
  }

  /** `handleHealth`: a 200 JSON document holding only `status: healthy`,
      which a client does not read as an error envelope. */
  function HealthResponse(): (r: Response)
    ensures r.status == StatusOK && IsJsonResponse(r) && ErrorMessage(r) == None
    ensures r.body.value.JObject? && r.body.value.fields.Keys == {"status"}
            && r.body.value.fields["status"] == JString("healthy")
  {
    WriteJson(StatusOK, JObject(map["status" := JString("healthy")]))
  }

  /** The route table behind the CORS wrapper, returning the gate as the
      request leaves it. */
  function Dispatch(s: Server, c: Collaborators, keyOf: Middleware.KeyOf, req: Request, now: int): (r: (Response, Server))
    ensures !Protected(RouteOf(req.verb, req.path)) ==> r.1 == s
    ensures RouteOf(req.verb, req.path) == HealthRoute ==> r.0 == HealthResponse()
    ensures RouteOf(req.verb, req.path) == DocsRoute ==> r.0 == c.docs(req)
    ensures RouteOf(req.verb, req.path) == WrongMethod ==> r.0 == PlainError("Method Not Allowed", 405)
    ensures RouteOf(req.verb, req.path) == Unknown ==> r.0 == PlainError("404 page not found", 404)
    ensures RouteOf(req.verb, req.path) != DocsRoute ==> r.0.headers.Keys <= ResponseHeaderNames
    ensures Protected(RouteOf(req.verb, req.path)) ==>
              r == (Protect(s, c, keyOf, RouteOf(req.verb, req.path), req, now).0,
                    s.(gate := Protect(s, c, keyOf, RouteOf(req.verb, req.path), req, now).1))
  {
    var route := RouteOf(req.verb, req.path);
    match route
    case HealthRoute => (HealthResponse(), s)
    case DocsRoute => (c.docs(req), s)
    case WrongMethod => (PlainError("Method Not Allowed", 405), s)
    case Unknown => (PlainError("404 page not found", 404), s)
    case _ =>
      var (resp, gate) := Protect(s, c, keyOf, route, req, now);
      (resp, s.(gate := gate))
  }

  /** `ServeHTTP`: the CORS headers on every response (a handler's own
      header of the same name would win), and `OPTIONS` answered with 200
      before the route table is consulted. The source's server is
      `ServeHttp(s, c, Middleware.RemoteAddrKey, req, now)`. */
  function ServeHttp(s: Server, c: Collaborators, keyOf: Middleware.KeyOf, req: Request, now: int): (r: (Response, Server))
    ensures req.verb == "OPTIONS" ==> r == (Response(StatusOK, CorsHeaders(), NoBody), s)
    ensures req.verb != "OPTIONS" ==>
              var inner := Dispatch(s, c, keyOf, req, now);
              r.1 == inner.1 && r.0.status == inner.0.status && r.0.body == inner.0.body
              && r.0.headers == CorsHeaders() + inner.0.headers
  {
    if req.verb == "OPTIONS" then (Response(StatusOK, CorsHeaders(), NoBody), s)
    else
      var (resp, s') := Dispatch(s, c, keyOf, req, now);
      (resp.(headers := CorsHeaders() + resp.headers), s')
  }

  /** Every response of the service itself (all but the documentation
      pages) carries the three CORS headers unchanged. */
  lemma CorsOnEveryResponse(s: Server, c: Collaborators, keyOf: Middleware.KeyOf, req: Request, now: int)
    requires RouteOf(req.verb, req.path) != DocsRoute
    ensures var h := ServeHttp(s, c, keyOf, req, now).0.headers;
            forall k :: k in CorsHeaders() ==> k in h && h[k] == CorsHeaders()[k]
  {
    assert forall k :: k in CorsHeaders() ==> k !in ResponseHeaderNames;
  }

  /** The limiter is consulted before the key: an over-budget client gets
      429 whatever key it presents, and its budget is left as it was. */
  lemma RateCheckedBeforeKey(s: Server, c: Collaborators, keyOf: Middleware.KeyOf, req: Request, now: int)
    requires req.verb != "OPTIONS" && Protected(RouteOf(req.verb, req.path))
    requires s.gate.limiter.rate != 0
    requires !Middleware.Allow(s.gate.limiter, keyOf(req.remoteAddr), now).allowed
    ensures ServeHttp(s, c, keyOf, req, now).0.status == StatusTooManyRequests
    ensures ServeHttp(s, c, keyOf, req, now).1 == s
  {
  }

  /** A request with a wrong key is refused with 401 but still spends a
      token of its client's budget. */
  lemma WrongKeyStillSpends(s: Server, c: Collaborators, keyOf: Middleware.KeyOf, req: Request, now: int)
    requires req.verb != "OPTIONS" && Protected(RouteOf(req.verb, req.path))
    requires s.gate.limiter.rate != 0 && s.gate.apiKey != ""
    requires HeaderGet(req.headers, Middleware.ApiKeyHeader) != s.gate.apiKey
    requires Middleware.Allow(s.gate.limiter, keyOf(req.remoteAddr), now).allowed
    ensures ServeHttp(s, c, keyOf, req, now).0.status == StatusUnauthorized
    ensures ServeHttp(s, c, keyOf, req, now).1.gate.limiter
            == Middleware.Allow(s.gate.limiter, keyOf(req.remoteAddr), now).limiter
  {
  }

  /** A server fresh from `NewServer` knows no client yet, so the first
      protected request of any client that carries the key reaches its
      handler, whatever the keying, and a positive rate leaves that client
      with `rate - 1` tokens from now on. */
  lemma FreshServerAdmitsFirstRequest(cfg: Config.Config, env: Config.Env, collections: Qdrant.CollectionsRpc,
                                      clients: Agent.Clients, c: Collaborators, keyOf: Middleware.KeyOf,
                                      req: Request, now: int)
    requires NewServer(cfg, env, None, collections, clients).Ok?
    requires Protected(RouteOf(req.verb, req.path))
    requires Middleware.Authorized(cfg.server.apiKey, req)
    ensures var s := NewServer(cfg, env, None, collections, clients).value;
            var r := Dispatch(s, c, keyOf, req, now);
            && r.0 == Handler(s, c, RouteOf(req.verb, req.path), req)
            && (cfg.server.rateLimit != 0 ==>
                  r.1.gate.limiter.clients == map[keyOf(req.remoteAddr) := Middleware.ClientRecord(cfg.server.rateLimit - 1, now)])
  {
    var s := NewServer(cfg, env, None, collections, clients).value;
    var key := keyOf(req.remoteAddr);
    var d := Middleware.Allow(s.gate.limiter, key, now);
    assert key !in s.gate.limiter.clients;
    if cfg.server.rateLimit != 0 {
      assert d.limiter.clients.Keys == {key} by {
        assert d.limiter.clients.Keys - {key} == s.gate.limiter.clients.Keys - {key};
      }
    }
  }

  /** A protected request other than a preflight, at a positive rate: the
      limiter decides under the client's key and its new state is kept; a
      refusal is 429, and an admitted request with the key gets the
      handler's answer. */
  lemma ServeProtected(s: Server, c: Collaborators, keyOf: Middleware.KeyOf, req: Request, now: int)
    requires req.verb != "OPTIONS" && Protected(RouteOf(req.verb, req.path)) && s.gate.limiter.rate != 0
    ensures var d := Middleware.Allow(s.gate.limiter, keyOf(req.remoteAddr), now);
            var r := ServeHttp(s, c, keyOf, req, now);
            var h := Handler(s, c, RouteOf(req.verb, req.path), req);
            && r.1 == s.(gate := s.gate.(limiter := d.limiter))
            && (!d.allowed ==> r.0.status == StatusTooManyRequests)
            && (d.allowed && Middleware.Authorized(s.gate.apiKey, req) ==> r.0.status == h.status && r.0.body == h.body)
  {
  }

  /** Two protected requests of one host from two different ports, one
      clock tick apart, at rate 1 and with no key configured: keyed by the
      whole `RemoteAddr`, as the source does, the second still reaches its
      handler. */
  lemma PortsDodgeLimitThroughServer(s: Server, c: Collaborators, r1: Request, r2: Request,
                                     host: string, p1: string, p2: string, now: int)
    requires s.gate == Middleware.NewMiddleware("", 1, s.gate.limiter.window) && s.gate.limiter.window > 1
    requires r1.verb != "OPTIONS" && Protected(RouteOf(r1.verb, r1.path))
    requires r2.verb != "OPTIONS" && Protected(RouteOf(r2.verb, r2.path))
    requires r1.remoteAddr == host + ":" + p1 && r2.remoteAddr == host + ":" + p2 && p1 != p2
    ensures var a1 := ServeHttp(s, c, Middleware.RemoteAddrKey, r1, now);
            var a2 := ServeHttp(a1.1, c, Middleware.RemoteAddrKey, r2, now + 1);
            var h := Handler(a1.1, c, RouteOf(r2.verb, r2.path), r2);
            a2.0.status == h.status && a2.0.body == h.body
  {
    Middleware.PortsDiffer(host, p1, p2);
    ServeProtected(s, c, Middleware.RemoteAddrKey, r1, now);
    var a1 := ServeHttp(s, c, Middleware.RemoteAddrKey, r1, now);
    assert r2.remoteAddr !in a1.1.gate.limiter.clients;
    ServeProtected(a1.1, c, Middleware.RemoteAddrKey, r2, now + 1);
  }

  /** The same two requests keyed by host draw on one budget: the second
      is refused with 429. */
  lemma PortsShareBudgetThroughServer(s: Server, c: Collaborators, r1: Request, r2: Request,
                                      host: string, p1: string, p2: string, now: int)
    requires s.gate == Middleware.NewMiddleware("", 1, s.gate.limiter.window) && s.gate.limiter.window > 1
    requires r1.verb != "OPTIONS" && Protected(RouteOf(r1.verb, r1.path))
    requires r2.verb != "OPTIONS" && Protected(RouteOf(r2.verb, r2.path))
    requires r1.remoteAddr == host + ":" + p1 && r2.remoteAddr == host + ":" + p2 && ':' !in p1 && ':' !in p2
    ensures var b1 := ServeHttp(s, c, Middleware.ClientHost, r1, now);
            var b2 := ServeHttp(b1.1, c, Middleware.ClientHost, r2, now + 1);
            b2.0.status == StatusTooManyRequests
  {
    Middleware.ClientHostOfHostPort(host, p1);
    Middleware.ClientHostOfHostPort(host, p2);
    ServeProtected(s, c, Middleware.ClientHost, r1, now);
    var b1 := ServeHttp(s, c, Middleware.ClientHost, r1, now);
    assert b1.1.gate.limiter.clients[host] == Middleware.ClientRecord(0, now);
    ServeProtected(b1.1, c, Middleware.ClientHost, r2, now + 1);
  }

  /** Only the protected routes touch the limiter; the health check,
      the documentation, preflight requests and unknown routes leave the
      server as it was. */
  lemma OnlyProtectedRoutesSpend(s: Server, c: Collaborators, keyOf: Middleware.KeyOf, req: Request, now: int)
    requires req.verb == "OPTIONS" || !Protected(RouteOf(req.verb, req.path))
    ensures ServeHttp(s, c, keyOf, req, now).1 == s
  {
  }

  /** Each protected path of the route table reaches its own handler: a
      `POST` to the upload, search or chat path, or to its alias, that the
      limiter admits and that carries the key answers what the upload,
      search or chat handler answers. */
  lemma RoutesReachHandlers(s: Server, c: Collaborators, keyOf: Middleware.KeyOf, req: Request, now: int)
    requires req.verb != "OPTIONS"
    ensures var r := ServeHttp(s, c, keyOf, req, now).0;
            var admitted := s.gate.limiter.rate == 0 || Middleware.Allow(s.gate.limiter, keyOf(req.remoteAddr), now).allowed;
            var h := Respond(Upload(s, c, req.body), UploadJson);
            (req.verb == "POST" && (req.path == UploadPath || req.path == UploadAlias)
             && admitted && Middleware.Authorized(s.gate.apiKey, req))
            ==> r.status == h.status && r.body == h.body
    ensures var r := ServeHttp(s, c, keyOf, req, now).0;
            var admitted := s.gate.limiter.rate == 0 || Middleware.Allow(s.gate.limiter, keyOf(req.remoteAddr), now).allowed;
            var h := Respond(Search(s, c, req.body), SearchJson);
            (req.verb == "POST" && (req.path == SearchPath || req.path == SearchAlias)
             && admitted && Middleware.Authorized(s.gate.apiKey, req))
            ==> r.status == h.status && r.body == h.body
    ensures var r := ServeHttp(s, c, keyOf, req, now).0;
            var admitted := s.gate.limiter.rate == 0 || Middleware.Allow(s.gate.limiter, keyOf(req.remoteAddr), now).allowed;
            var h := Respond(Chat(s, c, req.body), ChatJson);
            (req.verb == "POST" && (req.path == ChatPath || req.path == ChatAlias)
             && admitted && Middleware.Authorized(s.gate.apiKey, req))
            ==> r.status == h.status && r.body == h.body
  {
    RouteTable(req.verb, req.path);
    var route := RouteOf(req.verb, req.path);
    if Protected(route) && (s.gate.limiter.rate == 0 || Middleware.Allow(s.gate.limiter, keyOf(req.remoteAddr), now).allowed)
       && Middleware.Authorized(s.gate.apiKey, req) {
      ServedByHandler(s, c, keyOf, req, now);
    }
  }

  /** The answers that need no handler: `GET /health` answers
      `{"status": "healthy"}`, any method but `POST` on a protected path gets
      405, and a path the table does not know gets 404, none of them
      touching the limiter. */
  lemma FixedAnswers(s: Server, c: Collaborators, keyOf: Middleware.KeyOf, req: Request, now: int)
    requires req.verb != "OPTIONS"
    ensures var r := ServeHttp(s, c, keyOf, req, now);
            IsGet(req.verb) && req.path == "/health" ==> r.0.status == StatusOK && r.0.body == HealthResponse().body && r.1 == s
    ensures var r := ServeHttp(s, c, keyOf, req, now).0;
            (req.verb != "POST" && req.path in {UploadPath, UploadAlias, SearchPath, SearchAlias, ChatPath, ChatAlias})
            ==> r.status == 405
    ensures var r := ServeHttp(s, c, keyOf, req, now).0;
            (req.path !in {"/health", UploadPath, UploadAlias, SearchPath, SearchAlias, ChatPath, ChatAlias}
             && !("/docs/" <= req.path))
            ==> r.status == 404
  {
    RouteTable(req.verb, req.path);
  }

  /** Where the route table sends each path it knows, and every other one. */
  lemma RouteTable(verb: string, path: string)
    ensures IsGet(verb) && path == "/health" ==> RouteOf(verb, path) == HealthRoute
    ensures verb == "POST" && (path == UploadPath || path == UploadAlias) ==> RouteOf(verb, path) == UploadRoute
    ensures verb == "POST" && (path == SearchPath || path == SearchAlias) ==> RouteOf(verb, path) == SearchRoute
    ensures verb == "POST" && (path == ChatPath || path == ChatAlias) ==> RouteOf(verb, path) == ChatRoute
    ensures (verb != "POST" && path in {UploadPath, UploadAlias, SearchPath, SearchAlias, ChatPath, ChatAlias})
            ==> RouteOf(verb, path) == WrongMethod
    ensures (path !in {"/health", UploadPath, UploadAlias, SearchPath, SearchAlias, ChatPath, ChatAlias}
             && !("/docs/" <= path))
            ==> RouteOf(verb, path) == Unknown
  {
  }

  /** A protected request that the limiter admits and that carries the key
      gets its handler's status and body. */
  lemma ServedByHandler(s: Server, c: Collaborators, keyOf: Middleware.KeyOf, req: Request, now: int)
    requires req.verb != "OPTIONS" && Protected(RouteOf(req.verb, req.path))
    requires s.gate.limiter.rate == 0 || Middleware.Allow(s.gate.limiter, keyOf(req.remoteAddr), now).allowed
    requires Middleware.Authorized(s.gate.apiKey, req)
    ensures var r := ServeHttp(s, c, keyOf, req, now).0;
            var h := Handler(s, c, RouteOf(req.verb, req.path), req);
            r.status == h.status && r.body == h.body
  {
  }

  /** The versioned aliases reach the same handlers as the original paths. */
  lemma AliasesShareHandlers(verb: string)
    ensures RouteOf(verb, UploadAlias) == RouteOf(verb, UploadPath)
    ensures RouteOf(verb, SearchAlias) == RouteOf(verb, SearchPath)
    ensures RouteOf(verb, ChatAlias) == RouteOf(verb, ChatPath)
  {
  }
}
