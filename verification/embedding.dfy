/** The embedding guard around the provider call: the model name default,
    and the result-count checks that turn a short or long provider reply
    into an error. The provider itself is an oracle: a function from the
    request the service sends to the reply it gets. */
module Embedding {
  import opened Base
  import Text

  const DefaultModel := "gemini-embedding-001"

  datatype EmbedConfig = EmbedConfig(apiKey: string, modelName: string)

  /** A ready service; `apiKey` stands for the provider client built from it. */
  datatype Service = Service(apiKey: string, modelName: string)

  /** One provider call: the model and the texts, each sent as a user turn. */
  datatype EmbedRequest = EmbedRequest(model: string, contents: seq<string>)

  /** The provider's reply: a call error, a reply without an embeddings
      list (a nil slice), or the embeddings it returned. */
  datatype ProviderReply = ProviderError(msg: string) | NoEmbeddings | Embeddings(vectors: seq<Vector>)

  /** The number of embeddings in a reply that carries a list or none;
      `len` of a nil slice is 0. */
  function Count(reply: ProviderReply): nat
    requires !reply.ProviderError?
  {
    if reply.Embeddings? then |reply.vectors| else 0
  }

  type Provider = EmbedRequest -> ProviderReply

  /** `NewService`: fails only when the client cannot be built; otherwise the
      configured model, or the default one when none is configured. */
  function NewService(cfg: EmbedConfig, clientError: Option<string>): (r: Result<Service>)
    ensures clientError.Some? ==> r == Err("failed to create genai client: " + clientError.value)
    ensures clientError.None? ==> r.Ok? && r.value.apiKey == cfg.apiKey
    ensures clientError.None? && cfg.modelName != "" ==> r.value.modelName == cfg.modelName
    ensures clientError.None? && cfg.modelName == "" ==> r.value.modelName == DefaultModel
    ensures r.Ok? ==> r.value.modelName != ""
  {
    if clientError.Some? then Err("failed to create genai client: " + clientError.value)
    else Ok(Service(cfg.apiKey, if cfg.modelName == "" then DefaultModel else cfg.modelName))
  }

  /** The request `EmbedQuery` sends: the service's model and the one query. */
  function QueryRequest(s: Service, query: string): EmbedRequest {
    EmbedRequest(s.modelName, [query])
  }

  /** The request `EmbedDocuments` sends: all texts, in order, in one call. */
  function DocumentsRequest(s: Service, documents: seq<string>): EmbedRequest {
    EmbedRequest(s.modelName, documents)
  }

  /** `EmbedQuery`: the first embedding of the reply; a provider error or an
      empty reply is an error. */
  function EmbedQuery(s: Service, provider: Provider, query: string): (r: Result<Vector>)
    ensures provider(QueryRequest(s, query)).ProviderError? ==>
              r == Err("embed content failed: " + provider(QueryRequest(s, query)).msg)
    ensures !provider(QueryRequest(s, query)).ProviderError? && Count(provider(QueryRequest(s, query))) == 0 ==>
              r == Err("no embeddings returned")
    ensures r.Ok? <==> provider(QueryRequest(s, query)).Embeddings? && |provider(QueryRequest(s, query)).vectors| > 0
    ensures r.Ok? ==> r.value == provider(QueryRequest(s, query)).vectors[0]
  {
    match provider(QueryRequest(s, query))
    case ProviderError(msg) => Err("embed content failed: " + msg)
    case NoEmbeddings => Err("no embeddings returned")
    case Embeddings(vs) => if |vs| == 0 then Err("no embeddings returned") else Ok(vs[0])
  }

  function CountMismatch(got: nat, expected: nat): string {
    "unexpected number of embeddings: got " + Text.NatToDecimal(got) + ", expected " + Text.NatToDecimal(expected)
  }

  /** `EmbedDocuments`: succeeds exactly when the provider answered with a
      list holding one embedding per input text, and then returns them in
      provider order. A reply without a list is refused even for no texts. */
  function EmbedDocuments(s: Service, provider: Provider, documents: seq<string>): (r: Result<seq<Vector>>)
    ensures provider(DocumentsRequest(s, documents)).ProviderError? ==>
              r == Err("embed content failed: " + provider(DocumentsRequest(s, documents)).msg)
    ensures !provider(DocumentsRequest(s, documents)).ProviderError? && r.Err? ==>
              r == Err(CountMismatch(Count(provider(DocumentsRequest(s, documents))), |documents|))
    ensures r.Ok? <==> provider(DocumentsRequest(s, documents)).Embeddings?
                       && |provider(DocumentsRequest(s, documents)).vectors| == |documents|
    ensures r.Ok? ==> |r.value| == |documents|
    ensures r.Ok? ==> forall i :: 0 <= i < |documents| ==> r.value[i] == provider(DocumentsRequest(s, documents)).vectors[i]
  {
    match provider(DocumentsRequest(s, documents))
    case ProviderError(msg) => Err("embed content failed: " + msg)
    case NoEmbeddings => Err(CountMismatch(0, |documents|))
    case Embeddings(vs) =>
      if |vs| != |documents| then Err(CountMismatch(|vs|, |documents|))
      else Ok(seq(|vs|, i requires 0 <= i < |vs| => vs[i]))
  }

  /** `Close` has nothing to release and never fails. */
  function Close(s: Service): (r: Outcome)
    ensures r.Pass?
  {
    Pass
  }

  /** A service built without a model name asks the provider for the
      default model. */
  lemma DefaultModelIsRequested(cfg: EmbedConfig, query: string)
    requires cfg.modelName == ""
    ensures NewService(cfg, None).Ok?
    ensures QueryRequest(NewService(cfg, None).value, query).model == DefaultModel
  {
  }

  /** A service built without a model name behaves as one built with the
      default model named explicitly: same requests, same answers. */
  lemma NoModelMeansDefault(apiKey: string, provider: Provider, query: string, documents: seq<string>)
    ensures NewService(EmbedConfig(apiKey, ""), None) == NewService(EmbedConfig(apiKey, DefaultModel), None)
    ensures var s := NewService(EmbedConfig(apiKey, ""), None).value;
            var t := NewService(EmbedConfig(apiKey, DefaultModel), None).value;
            EmbedQuery(s, provider, query) == EmbedQuery(t, provider, query)
            && EmbedDocuments(s, provider, documents) == EmbedDocuments(t, provider, documents)
  {
  }

  /** Embedding a query is embedding a one-text batch and taking its only
      vector, whenever the provider answers that request with one vector;
      otherwise the query fails exactly when the batch does, unless the
      provider returned more than one vector. */
  lemma QueryIsSingletonBatch(s: Service, provider: Provider, query: string)
    ensures QueryRequest(s, query) == DocumentsRequest(s, [query])
    ensures var reply := provider(QueryRequest(s, query));
            reply.Embeddings? && |reply.vectors| == 1 ==>
              EmbedDocuments(s, provider, [query]).Ok?
              && EmbedQuery(s, provider, query) == Ok(EmbedDocuments(s, provider, [query]).value[0])
    ensures var reply := provider(QueryRequest(s, query));
            !(reply.Embeddings? && |reply.vectors| > 1) ==>
              (EmbedQuery(s, provider, query).Ok? <==> EmbedDocuments(s, provider, [query]).Ok?)
  {
  }

  const MismatchPrefix := "unexpected number of embeddings: got "

  /** Reads the received count back out of a count-mismatch message. */
  function ReceivedCount(msg: string): nat {
    var rest := Text.TrimPrefix(msg, MismatchPrefix);
    Text.DecimalValue(Text.DigitPrefix(rest))
  }

  /** A count-mismatch error carries the received count, readable back from
      the message, so replies of different sizes give different errors. */
  lemma {:induction false} MismatchNamesReceivedCount(got: nat, expected: nat)
    ensures ReceivedCount(CountMismatch(got, expected)) == got
  {
    var d := Text.NatToDecimal(got);
    var tail := ", expected " + Text.NatToDecimal(expected);
    assert CountMismatch(got, expected) == MismatchPrefix + (d + tail);
    assert Text.TrimPrefix(CountMismatch(got, expected), MismatchPrefix) == d + tail;
    Text.DigitPrefixOf(d, tail);
    Text.DecimalRoundTrip(got);
  }
}
