/** The vector-store client: how documents become stored points (id,
    payload, named vectors), how a hybrid query is put together, and how the
    scored points that come back are turned into search results. The gRPC
    services are oracles: functions from the request the client sends to
    the reply it receives. Fusion scoring happens inside the store and is
    not modelled; the reply is an opaque ordered list. */
module Qdrant {
  import opened Base

  // ---------------------------------------------------------------------
  // Collections

  datatype Distance = Cosine

  datatype VectorParams = VectorParams(size: nat, distance: Distance)

  /** A create-collection request: named dense vector parameters and the
      names of the sparse vectors. */
  datatype CreateCollection = CreateCollection(name: string, dense: map<string, VectorParams>, sparse: set<string>)

  /** The collections service: the existence check and the create call. */
  datatype CollectionsRpc = CollectionsRpc(collectionExists: string -> Result<bool>, create: CreateCollection -> Outcome)

  /** What `EnsureCollection` returned and the create request it sent, if any. */
  datatype Ensured = Ensured(outcome: Outcome, sent: Option<CreateCollection>)

  /** The collection the client creates: a cosine `dense` vector of the
      configured size and a `sparse` vector. */
  function CollectionSpec(name: string, vectorSize: nat): (c: CreateCollection)
    ensures c.name == name && c.dense.Keys == {"dense"} && c.dense["dense"].size == vectorSize
    ensures c.sparse == {"sparse"}
  {
    CreateCollection(name, map["dense" := VectorParams(vectorSize, Cosine)], {"sparse"})
  }

  /** `EnsureCollection`: nothing is created when the collection exists;
      otherwise one create request with the configured size is sent. The
      errors of both calls are passed on. */
  function EnsureCollection(rpc: CollectionsRpc, name: string, vectorSize: nat): (r: Ensured)
    ensures rpc.collectionExists(name).Err? ==> r == Ensured(Fail("failed to check collection: " + rpc.collectionExists(name).msg), None)
    ensures rpc.collectionExists(name) == Ok(true) ==> r == Ensured(Pass, None)
    ensures rpc.collectionExists(name) == Ok(false) ==>
              && r.sent == Some(CollectionSpec(name, vectorSize))
              && (r.outcome.Pass? <==> rpc.create(CollectionSpec(name, vectorSize)).Pass?)
    ensures r.outcome.Fail? && rpc.collectionExists(name).Ok? ==>
              && rpc.create(CollectionSpec(name, vectorSize)).Fail?
              && r.outcome.msg == "failed to create collection: " + rpc.create(CollectionSpec(name, vectorSize)).msg
  {
    match rpc.collectionExists(name)
    case Err(msg) => Ensured(Fail("failed to check collection: " + msg), None)
    case Ok(found) =>
      if found then Ensured(Pass, None)
      else
        var spec := CollectionSpec(name, vectorSize);
        Ensured(rpc.create(spec).Wrap("failed to create collection: "), Some(spec))
  }

  /** A store that answers from its own table of collections and always
      accepts a create. */
  function TableRpc(table: map<string, CreateCollection>): CollectionsRpc {
    CollectionsRpc(n => Ok(n in table), _ => Pass)
  }

  /** The store's table after an `EnsureCollection` against it. */
  function EnsureOnTable(table: map<string, CreateCollection>, name: string, vectorSize: nat): (r: (Outcome, map<string, CreateCollection>))
  {
    var e := EnsureCollection(TableRpc(table), name, vectorSize);
    (e.outcome, if e.sent.Some? then table[name := e.sent.value] else table)
  }

  /** Ensuring a collection is idempotent: afterwards the collection exists
      with the requested size, and ensuring it again sends no create and
      changes nothing. An existing collection is left as it is, whatever
      its size. */
  lemma EnsureIdempotent(table: map<string, CreateCollection>, name: string, vectorSize: nat)
    ensures var once := EnsureOnTable(table, name, vectorSize);
            && once.0 == Pass
            && name in once.1
            && (name !in table ==> once.1[name].dense["dense"].size == vectorSize)
            && (name in table ==> once.1 == table)
            && EnsureCollection(TableRpc(once.1), name, vectorSize).sent == None
            && EnsureOnTable(once.1, name, vectorSize) == once
  {
  }

  // ---------------------------------------------------------------------
  // Upsert

  datatype SparseVector = SparseVector(indices: seq<bv32>, values: seq<Float32>)

  /** A document handed to `Upsert`; an empty `id` asks for a fresh one. */
  datatype Document = Document(id: string, content: string, metadata: map<string, string>, dense: Vector, sparse: Option<SparseVector>)

  /** A named vector of a point. */
  datatype VectorData = DenseData(data: Vector) | SparseData(indices: seq<bv32>, values: seq<Float32>)

  /** A payload value; the client only writes strings, other kinds stand for
      whatever else a stored point may hold. */
  datatype PayloadValue = StringValue(s: string) | OtherValue

  datatype Point = Point(id: string, vectors: map<string, VectorData>, payload: map<string, PayloadValue>)

  datatype UpsertPoints = UpsertPoints(collection: string, points: seq<Point>)

  /** The point payload: `content` first, then every metadata pair, so a
      metadata key named `content` takes its place. */
  function Payload(doc: Document): (p: map<string, PayloadValue>)
    ensures p.Keys == {"content"} + doc.metadata.Keys
    ensures forall k :: k in doc.metadata ==> p[k] == StringValue(doc.metadata[k])
    ensures "content" !in doc.metadata ==> p["content"] == StringValue(doc.content)
    ensures forall k :: k in p ==> p[k].StringValue?
  {
    map["content" := StringValue(doc.content)] + map k | k in doc.metadata :: StringValue(doc.metadata[k])
  }

  /** The named vectors: always `dense`, and `sparse` exactly when the
      document has a sparse vector. */
  function Vectors(doc: Document): (v: map<string, VectorData>)
    ensures "dense" in v && v["dense"] == DenseData(doc.dense)
    ensures "sparse" in v <==> doc.sparse.Some?
    ensures doc.sparse.Some? ==> v["sparse"] == SparseData(doc.sparse.value.indices, doc.sparse.value.values)
    ensures v.Keys <= {"dense", "sparse"}
  {
    if doc.sparse.Some? then
      map["dense" := DenseData(doc.dense),
          "sparse" := SparseData(doc.sparse.value.indices, doc.sparse.value.values)]
    else
      map["dense" := DenseData(doc.dense)]
  }

  /** The point for the document at position `i`; `freshId(i)` is the id the
      generator yields when the document has none. */
  function ToPoint(doc: Document, i: nat, freshId: nat -> Uuid): (p: Point)
    ensures doc.id != "" ==> p.id == doc.id
    ensures doc.id == "" ==> p.id == freshId(i)
    ensures p.id != ""
    ensures p.payload == Payload(doc) && p.vectors == Vectors(doc)
  {
    Point(if doc.id != "" then doc.id else freshId(i), Vectors(doc), Payload(doc))
  }

  /** The points `Upsert` sends: one per document, in input order. */
  function BuildPoints(docs: seq<Document>, freshId: nat -> Uuid): (ps: seq<Point>)
    ensures |ps| == |docs|
    ensures forall i :: 0 <= i < |docs| ==> ps[i] == ToPoint(docs[i], i, freshId)
  {
    seq(|docs|, i requires 0 <= i < |docs| => ToPoint(docs[i], i, freshId))
  }

  /** `Upsert`: one batch call carrying every point; its error is passed on. */
  function Upsert(collection: string, docs: seq<Document>, freshId: nat -> Uuid, rpc: UpsertPoints -> Outcome): (r: Outcome)
    ensures r.Pass? <==> rpc(UpsertPoints(collection, BuildPoints(docs, freshId))).Pass?
    ensures r.Fail? ==> r.msg == "failed to upsert points: " + rpc(UpsertPoints(collection, BuildPoints(docs, freshId))).msg
  {
    rpc(UpsertPoints(collection, BuildPoints(docs, freshId))).Wrap("failed to upsert points: ")
  }

  // ---------------------------------------------------------------------
  // Hybrid search

  datatype Fusion = Rrf

  /** One sub-query: nearest neighbours of a vector under a named vector. */
  datatype Prefetch = Prefetch(query: VectorData, using: string, limit: nat)

  datatype QueryPoints = QueryPoints(collection: string, prefetch: seq<Prefetch>, fusion: Fusion, limit: nat, withPayload: bool)

  datatype PointId = UuidId(uuid: string) | NumId(num: nat)

  datatype ScoredPoint = ScoredPoint(id: PointId, score: Float32, payload: map<string, PayloadValue>)

  /** A search hit: the stored `content` apart from the other fields. */
  datatype SearchResult = SearchResult(id: string, score: Float32, content: string, payload: map<string, string>)

  /** The fused query: a dense sub-query, a sparse one when a sparse vector
      is given, each limited to `topK`, and reciprocal rank fusion of them
      limited to `topK`, payloads included. */
  function BuildQuery(collection: string, dense: Vector, sparse: Option<SparseVector>, topK: nat): (q: QueryPoints)
    ensures q.collection == collection && q.fusion == Rrf && q.limit == topK && q.withPayload
    ensures |q.prefetch| == if sparse.Some? then 2 else 1
    ensures q.prefetch[0] == Prefetch(DenseData(dense), "dense", topK)
    ensures sparse.Some? ==> q.prefetch[1] == Prefetch(SparseData(sparse.value.indices, sparse.value.values), "sparse", topK)
    ensures forall i :: 0 <= i < |q.prefetch| ==> q.prefetch[i].limit == topK
  {
    var first := [Prefetch(DenseData(dense), "dense", topK)];
    var prefetch := if sparse.Some? then first + [Prefetch(SparseData(sparse.value.indices, sparse.value.values), "sparse", topK)] else first;
    QueryPoints(collection, prefetch, Rrf, topK, true)
  }

  /** `GetStringValue`: the text of a string value, "" for any other kind. */
  function StringOf(v: PayloadValue): string {
    if v.StringValue? then v.s else ""
  }

  /** `GetUuid`: the uuid of a uuid id, "" for a numeric one. */
  function UuidOf(id: PointId): string {
    if id.UuidId? then id.uuid else ""
  }

  /** Turns a returned point into a search result: the `content` field goes
      to `content`, the other non-empty string fields to `payload`; empty and
      non-string values are dropped. */
  function ToResult(p: ScoredPoint): (r: SearchResult)
    ensures r.id == UuidOf(p.id) && r.score == p.score
    ensures r.content == if "content" in p.payload then StringOf(p.payload["content"]) else ""
    ensures "content" !in r.payload
    ensures forall k :: k in r.payload <==> k in p.payload && k != "content" && StringOf(p.payload[k]) != ""
    ensures forall k :: k in r.payload ==> r.payload[k] == StringOf(p.payload[k])
  {
    SearchResult(
      UuidOf(p.id),
      p.score,
      if "content" in p.payload && StringOf(p.payload["content"]) != "" then StringOf(p.payload["content"]) else "",
      map k | k in p.payload && k != "content" && StringOf(p.payload[k]) != "" :: StringOf(p.payload[k]))
  }

  type QueryRpc = QueryPoints -> Result<seq<ScoredPoint>>

  /** `HybridSearch`: one fused query; its error is passed on, otherwise one
      result per returned point, in the store's order. */
  function HybridSearch(collection: string, dense: Vector, sparse: Option<SparseVector>, topK: nat, rpc: QueryRpc): (r: Result<seq<SearchResult>>)
    ensures rpc(BuildQuery(collection, dense, sparse, topK)).Err? ==>
              r == Err("failed to search: " + rpc(BuildQuery(collection, dense, sparse, topK)).msg)
    ensures r.Ok? <==> rpc(BuildQuery(collection, dense, sparse, topK)).Ok?
    ensures r.Ok? ==> |r.value| == |rpc(BuildQuery(collection, dense, sparse, topK)).value|
    ensures r.Ok? ==> forall i :: 0 <= i < |r.value| ==> r.value[i] == ToResult(rpc(BuildQuery(collection, dense, sparse, topK)).value[i])
  {
    match rpc(BuildQuery(collection, dense, sparse, topK))
    case Err(msg) => Err("failed to search: " + msg)
    case Ok(points) => Ok(seq(|points|, i requires 0 <= i < |points| => ToResult(points[i])))
  }

  /** Storing and reading back: a point written by `Upsert`, returned by a
      search, gives back its id, its content and exactly its non-empty
      metadata, provided no metadata key is named `content`. */
  lemma StoredPointReadsBack(doc: Document, i: nat, freshId: nat -> Uuid, score: Float32)
    requires "content" !in doc.metadata
    ensures var p := ToPoint(doc, i, freshId);
            var r := ToResult(ScoredPoint(UuidId(p.id), score, p.payload));
            && r.id == p.id
            && r.content == doc.content
            && r.payload == map k | k in doc.metadata && doc.metadata[k] != "" :: doc.metadata[k]
  {
    var p := ToPoint(doc, i, freshId);
    var r := ToResult(ScoredPoint(UuidId(p.id), score, p.payload));
    var expected := map k | k in doc.metadata && doc.metadata[k] != "" :: doc.metadata[k];
    assert r.payload.Keys == expected.Keys;
  }

  /** A metadata key named `content` replaces the chunk text in the stored
      payload, and the search result then shows the metadata value. */
  lemma MetadataContentWins(doc: Document, i: nat, freshId: nat -> Uuid, score: Float32)
    requires "content" in doc.metadata
    ensures ToPoint(doc, i, freshId).payload["content"] == StringValue(doc.metadata["content"])
    ensures ToResult(ScoredPoint(UuidId(ToPoint(doc, i, freshId).id), score, ToPoint(doc, i, freshId).payload)).content
            == doc.metadata["content"]
  {
  }
}
