/** The agent factory: the API-key fallback when the factory is built, the
    up-front retrieval of documents for a query, and the instruction the
    agent is created with, which embeds the retrieved documents as a
    numbered knowledge-base section ahead of a fixed strategy text.

    The language-model client, the agent and runner constructors and the
    `%.2f` rendering of scores are oracles. */
module Agent {
  import opened Base
  import Text
  import Config
  import Embedding
  import Qdrant

  /** The language-model client, named by the model it talks to and the key
      it was built with. */
  datatype LlmModel = LlmModel(name: string, apiKey: string)

  datatype Factory = Factory(cfg: Config.Config, embedding: Embedding.Service, model: LlmModel)

  /** The genai client constructors: each yields an error message or none,
      given the key (and, for the language model, the model name). */
  datatype Clients = Clients(embeddingClient: string -> Option<string>, modelClient: (string, string) -> Option<string>)

  /** The key both clients are built with: the configured one, or the
      `GOOGLE_API_KEY` variable when none is configured. */
  function ApiKey(cfg: Config.Config, env: Config.Env): string {
    if cfg.model.apiKey == "" then Config.Getenv(env, "GOOGLE_API_KEY") else cfg.model.apiKey
  }

  /** `NewFactory`: the embedding service, then the language model, each
      failure wrapped with what was being created. */
  function NewFactory(cfg: Config.Config, env: Config.Env, clients: Clients): (r: Result<Factory>)
    ensures var key := ApiKey(cfg, env);
            clients.embeddingClient(key).Some? ==>
              r == Err("failed to create embedding service: " + ("failed to create genai client: " + clients.embeddingClient(key).value))
    ensures var key := ApiKey(cfg, env);
            clients.embeddingClient(key).None? && clients.modelClient(cfg.model.name, key).Some? ==>
              r == Err("failed to create model: " + clients.modelClient(cfg.model.name, key).value)
    ensures r.Ok? ==> r.value.cfg == cfg
    ensures r.Ok? ==> r.value.embedding.apiKey == ApiKey(cfg, env)
    ensures r.Ok? ==> r.value.model.apiKey == ApiKey(cfg, env)
    ensures r.Ok? ==> r.value.model.name == cfg.model.name
    ensures r.Ok? ==> r.value.embedding.modelName == if cfg.model.embeddingModel == "" then Embedding.DefaultModel else cfg.model.embeddingModel
  {
    var key := ApiKey(cfg, env);
    var service := Embedding.NewService(Embedding.EmbedConfig(key, cfg.model.embeddingModel), clients.embeddingClient(key));
    if service.Err? then Err("failed to create embedding service: " + service.msg)
    else
      var modelError := clients.modelClient(cfg.model.name, key);
      if modelError.Some? then Err("failed to create model: " + modelError.value)
      else Ok(Factory(cfg, service.value, LlmModel(cfg.model.name, key)))
  }

  /** A configured key wins; otherwise the variable supplies it. */
  lemma ApiKeyFallback(cfg: Config.Config, env: Config.Env, j: nat)
    requires j < |env| && env[j].0 == "GOOGLE_API_KEY"
    ensures cfg.model.apiKey != "" ==> ApiKey(cfg, env) == cfg.model.apiKey
    ensures cfg.model.apiKey == "" ==> ApiKey(cfg, env) == env[j].1
  {
    Config.GetenvFinds(env, j);
  }

  // ---------------------------------------------------------------------
  // Retrieval

  datatype RetrievedContext = RetrievedContext(documents: seq<Qdrant.SearchResult>, query: string)

  const DefaultTopK := 10

  /** The number of documents retrieved: the configured count, or ten when
      it is not positive. */
  function EffectiveTopK(configured: int): (k: int)
    ensures k > 0
    ensures configured > 0 ==> k == configured
    ensures configured <= 0 ==> k == DefaultTopK
  {
    if configured <= 0 then DefaultTopK else configured
  }

  /** `Retrieve`: embeds the query, then runs a dense-only hybrid search of
      the configured collection for the effective number of documents. */
  function Retrieve(f: Factory, provider: Embedding.Provider, search: Qdrant.QueryRpc, query: string): (r: Result<RetrievedContext>)
    ensures var v := Embedding.EmbedQuery(f.embedding, provider, query);
            v.Err? ==> r == Err("embedding query failed: " + v.msg)
    ensures var v := Embedding.EmbedQuery(f.embedding, provider, query);
            v.Ok? ==>
              var found := Qdrant.HybridSearch(f.cfg.vectorStore.collection, v.value, None, ToUint64(EffectiveTopK(f.cfg.retriever.topK)), search);
              && (found.Err? ==> r == Err("retrieval failed: " + found.msg))
              && (found.Ok? ==> r == Ok(RetrievedContext(found.value, query)))
  {
    var vector :- Embedding.EmbedQuery(f.embedding, provider, query).Wrap("embedding query failed: ");
    var found :- Qdrant.HybridSearch(f.cfg.vectorStore.collection, vector, None, ToUint64(EffectiveTopK(f.cfg.retriever.topK)), search)
                 .Wrap("retrieval failed: ");
    Ok(RetrievedContext(found, query))
  }

  /** When the query cannot be embedded, the store is never asked: the
      outcome is the same whatever the store would answer. */
  lemma RetrieveSkipsStoreOnEmbeddingFailure(f: Factory, provider: Embedding.Provider, s1: Qdrant.QueryRpc, s2: Qdrant.QueryRpc, query: string)
    requires Embedding.EmbedQuery(f.embedding, provider, query).Err?
    ensures Retrieve(f, provider, s1, query) == Retrieve(f, provider, s2, query)
    ensures Retrieve(f, provider, s1, query).Err?
  {
  }

  /** On success the store was asked for the effective number of documents,
      dense vector only, and its results are returned in its order. */
  lemma RetrieveAsksForTopK(f: Factory, provider: Embedding.Provider, search: Qdrant.QueryRpc, query: string)
    requires Retrieve(f, provider, search, query).Ok?
    requires 0 < f.cfg.retriever.topK < Two64
    ensures var v := Embedding.EmbedQuery(f.embedding, provider, query).value;
            var q := Qdrant.BuildQuery(f.cfg.vectorStore.collection, v, None, f.cfg.retriever.topK);
            && |q.prefetch| == 1 && q.limit == f.cfg.retriever.topK
            && search(q).Ok?
            && |Retrieve(f, provider, search, query).value.documents| == |search(q).value|
  {
  }

  // ---------------------------------------------------------------------
  // The instruction

  /** The `%.2f` rendering of a score. */
  type ScoreText = Float32 -> string

  const ContextHeader := "\n\n## Retrieved Knowledge Base Documents\n\n"

  /** The block of the document numbered `n`: a heading with its number and
      score, its content, and a blank line. */
  function DocBlock(n: nat, doc: Qdrant.SearchResult, scoreText: ScoreText): string {
    "### Document " + Text.NatToDecimal(n) + " (Score: " + scoreText(doc.score) + ")\n" + doc.content + "\n\n"
  }

  /** A rendering of the document numbered `n`. */
  type Render = (nat, Qdrant.SearchResult) -> string

  /** The renderings of `docs`, numbered from `first` in order. */
  function Rendered(docs: seq<Qdrant.SearchResult>, first: nat, render: Render): string
    decreases |docs|
  {
    if |docs| == 0 then "" else render(first, docs[0]) + Rendered(docs[1..], first + 1, render)
  }

  /** Rendering a concatenation renders each part, the second part
      numbered on from the first. */
  lemma {:induction false} RenderedAppend(a: seq<Qdrant.SearchResult>, b: seq<Qdrant.SearchResult>, first: nat, render: Render)
    ensures Rendered(a + b, first, render) == Rendered(a, first, render) + Rendered(b, first + |a|, render)
    decreases |a|
  {
    if |a| == 0 {
      assert a + b == b;
    } else {
      assert (a + b)[0] == a[0] && (a + b)[1..] == a[1..] + b;
      RenderedAppend(a[1..], b, first + 1, render);
      var x := render(first, a[0]);
      var y := Rendered(a[1..], first + 1, render);
      var z := Rendered(b, first + |a|, render);
      assert x + (y + z) == (x + y) + z;
    }
  }

  /** The block rendering of the factory, for a given score format. */
  function BlockRender(scoreText: ScoreText): Render {
    (n: nat, doc: Qdrant.SearchResult) => DocBlock(n, doc, scoreText)
  }

  /** The blocks of `docs`, numbered from `first` in order. */
  function Blocks(docs: seq<Qdrant.SearchResult>, first: nat, scoreText: ScoreText): string {
    Rendered(docs, first, BlockRender(scoreText))
  }

  /** Blocks of a concatenation are the blocks of each part, the second part
      numbered on from the first. */
  lemma BlocksAppend(a: seq<Qdrant.SearchResult>, b: seq<Qdrant.SearchResult>, first: nat, scoreText: ScoreText)
    ensures Blocks(a + b, first, scoreText) == Blocks(a, first, scoreText) + Blocks(b, first + |a|, scoreText)
  {
    RenderedAppend(a, b, first, BlockRender(scoreText));
  }

  /** Document `i` of the list sits after the blocks of the documents before
      it and is headed with number `first + i`. */
  lemma BlockOfEachDocument(docs: seq<Qdrant.SearchResult>, first: nat, scoreText: ScoreText, i: nat)
    requires i < |docs|
    ensures Blocks(docs, first, scoreText)
            == Blocks(docs[..i], first, scoreText) + DocBlock(first + i, docs[i], scoreText) + Blocks(docs[i + 1..], first + i + 1, scoreText)
  {
    var before, rest := docs[..i], docs[i..];
    assert docs == before + rest;
    BlocksAppend(before, rest, first, scoreText);
    assert rest[0] == docs[i] && rest[1..] == docs[i + 1..];
    BlocksUnfold(rest, first + i, scoreText);
    var x := Blocks(before, first, scoreText);
    var y := DocBlock(first + i, docs[i], scoreText);
    var z := Blocks(docs[i + 1..], first + i + 1, scoreText);
    assert x + (y + z) == x + y + z;
  }

  /** One step of `Blocks`: the first document's block, then the rest. */
  lemma BlocksUnfold(docs: seq<Qdrant.SearchResult>, first: nat, scoreText: ScoreText)
    requires |docs| > 0
    ensures Blocks(docs, first, scoreText) == DocBlock(first, docs[0], scoreText) + Blocks(docs[1..], first + 1, scoreText)
  {
    assert BlockRender(scoreText)(first, docs[0]) == DocBlock(first, docs[0], scoreText);
  }

  /** The knowledge-base section: empty without retrieved documents,
      otherwise the header and the documents numbered from one. */
  function ContextSection(retrieved: Option<RetrievedContext>, scoreText: ScoreText): string {
    if retrieved.Some? && |retrieved.value.documents| > 0 then ContextHeader + Blocks(retrieved.value.documents, 1, scoreText)
    else ""
  }

  /** The section is empty exactly when there is nothing to show. */
  lemma ContextEmptyIff(retrieved: Option<RetrievedContext>, scoreText: ScoreText)
    ensures ContextSection(retrieved, scoreText) == "" <==> retrieved.None? || |retrieved.value.documents| == 0
  {
    if retrieved.Some? && |retrieved.value.documents| > 0 {
      assert |ContextSection(retrieved, scoreText)| >= |ContextHeader| > 0;
    }
  }

  /** The blocks of the first `i + 1` documents extend those of the first `i`
      by the block of document `i`, numbered `i + 1`. */
  lemma NextBlock(docs: seq<Qdrant.SearchResult>, i: nat, scoreText: ScoreText)
    requires i < |docs|
    ensures Blocks(docs[..i + 1], 1, scoreText) == Blocks(docs[..i], 1, scoreText) + DocBlock(i + 1, docs[i], scoreText)
  {
    BlocksAppend(docs[..i], [docs[i]], 1, scoreText);
    assert docs[..i + 1] == docs[..i] + [docs[i]];
    BlocksUnfold([docs[i]], 1 + i, scoreText);
    assert [docs[i]][1..] == [];
    assert Blocks([], i + 2, scoreText) == "";
  }

  /** The section as the factory builds it, one write at a time. */
  method BuildContext(retrieved: Option<RetrievedContext>, scoreText: ScoreText) returns (s: string)
    ensures s == ContextSection(retrieved, scoreText)
  {
    s := "";
    if retrieved.Some? && |retrieved.value.documents| > 0 {
      var docs := retrieved.value.documents;
      s := ContextHeader;
      var i := 0;
      while i < |docs|
        invariant 0 <= i <= |docs|
        invariant s == ContextHeader + Blocks(docs[..i], 1, scoreText)
      {
        ghost var before := s;
        var heading := "### Document " + Text.NatToDecimal(i + 1) + " (Score: " + scoreText(docs[i].score) + ")\n";
        s := s + heading;
        s := s + docs[i].content;
        s := s + "\n\n";
        assert s == before + (heading + docs[i].content + "\n\n");
        NextBlock(docs, i, scoreText);
        i := i + 1;
      }
      assert docs[..i] == docs;
    }
  }

  /** The fixed strategy text that closes every instruction. */
  const Strategy := "STRATEGY:\n"
    + "1. First, analyze the retrieved documents above to answer the user's question.\n"
    + "2. If the retrieved documents contain sufficient information, use them to formulate your answer.\n"
    + "3. If the retrieved documents are insufficient or the topic requires current/real-time information, use google_search.\n"
    + "4. Always indicate whether your answer comes from internal documents or web search.\n"
    + "5. Cite sources when possible.\n"

  /** The instruction: the configured base, a blank line, the section, a
      blank line and the strategy. */
  function Instruction(base: string, section: string): (s: string)
    ensures base <= s
    ensures |s| >= |Strategy| && s[|s| - |Strategy|..] == Strategy
  {
    base + "\n\n" + section + "\n\n" + Strategy
  }

  /** The section can be read back out of the instruction from the length
      of the base alone. */
  lemma InstructionSectionReadsBack(base: string, section: string)
    ensures var s := Instruction(base, section);
            |base| + 2 <= |s| - 2 - |Strategy| && s[|base| + 2 .. |s| - 2 - |Strategy|] == section
  {
    var s := Instruction(base, section);
    assert s == (base + "\n\n") + section + ("\n\n" + Strategy);
  }

  // ---------------------------------------------------------------------
  // The runner

  /** The agent's only tool: the model's native web search. */
  datatype Tool = GoogleSearch

  datatype AgentSpec = AgentSpec(name: string, model: LlmModel, description: string, instruction: string, tools: seq<Tool>)

  datatype Runner = Runner(appName: string, agent: AgentSpec)

  /** The agent and runner constructors: each yields an error message or none. */
  datatype Builders = Builders(newAgent: AgentSpec -> Option<string>, newRunner: Runner -> Option<string>)

  /** The agent `NewRunner` asks for. */
  function RunnerAgent(f: Factory, retrieved: Option<RetrievedContext>, scoreText: ScoreText): AgentSpec {
    AgentSpec(f.cfg.agent.name, f.model, f.cfg.agent.description,
              Instruction(f.cfg.agent.instruction, ContextSection(retrieved, scoreText)), [GoogleSearch])
  }

  /** `NewRunner`: an agent carrying the instruction and exactly one tool,
      wrapped in a runner for the application. */
  function NewRunner(f: Factory, appName: string, retrieved: Option<RetrievedContext>, scoreText: ScoreText, b: Builders): (r: Result<Runner>)
    ensures var spec := RunnerAgent(f, retrieved, scoreText);
            b.newAgent(spec).Some? ==> r == Err("failed to create agent: " + b.newAgent(spec).value)
    ensures var spec := RunnerAgent(f, retrieved, scoreText);
            b.newAgent(spec).None? && b.newRunner(Runner(appName, spec)).Some? ==>
              r == Err("failed to create runner: " + b.newRunner(Runner(appName, spec)).value)
    ensures r.Ok? ==> r.value.appName == appName && r.value.agent.tools == [GoogleSearch]
    ensures r.Ok? ==> f.cfg.agent.instruction <= r.value.agent.instruction
    ensures r.Ok? ==> r.value.agent.instruction == Instruction(f.cfg.agent.instruction, ContextSection(retrieved, scoreText))
  {
    var spec := RunnerAgent(f, retrieved, scoreText);
    if b.newAgent(spec).Some? then Err("failed to create agent: " + b.newAgent(spec).value)
    else if b.newRunner(Runner(appName, spec)).Some? then Err("failed to create runner: " + b.newRunner(Runner(appName, spec)).value)
    else Ok(Runner(appName, spec))
  }

  /** Without retrieved documents the instruction is the base and the
      strategy separated by two blank lines. */
  lemma NoDocumentsNoSection(f: Factory, appName: string, scoreText: ScoreText, b: Builders)
    requires NewRunner(f, appName, None, scoreText, b).Ok?
    ensures NewRunner(f, appName, None, scoreText, b).value.agent.instruction == f.cfg.agent.instruction + "\n\n\n\n" + Strategy
  {
  }
}
