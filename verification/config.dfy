/** Configuration loading. A configuration starts from built-in defaults;
    four unprefixed environment variables are applied to those defaults;
    then a key/value overlay, built from an optional YAML file with the
    `APP_`-prefixed environment variables merged over it, is decoded onto
    the configuration, so that every field whose key the overlay holds takes
    the overlay's value.

    The overlay library is modelled as a flat map from dotted keys
    (`model.name`) to values. Decoding a value into a field of the same
    type keeps it as it is; every other conversion (a string into an
    integer field, say) is done by the `Coercion` oracle. */
module Config {
  import opened Base
  import Text

  datatype ModelConfig = ModelConfig(name: string, embeddingModel: string, apiKey: string, temperature: real, maxTokens: int)
  datatype AgentConfig = AgentConfig(name: string, description: string, instruction: string)
  datatype VectorStoreConfig = VectorStoreConfig(provider: string, url: string, grpcPort: int, collection: string, vectorSize: nat, apiKey: string)
  datatype RetrieverConfig = RetrieverConfig(topK: int, minScore: real, chunkSize: int, chunkOverlap: int)
  datatype ServerConfig = ServerConfig(host: string, port: int, apiKey: string, rateLimit: int, rateWindow: int)
  datatype TracingConfig = TracingConfig(enabled: bool, endpoint: string, serviceName: string)

  datatype Config = Config(
    model: ModelConfig,
    agent: AgentConfig,
    vectorStore: VectorStoreConfig,
    retriever: RetrieverConfig,
    server: ServerConfig,
    tracing: TracingConfig)

  /** The built-in defaults. */
  function Defaults(): Config {
    Config(
      ModelConfig("gemini-2.5-flash", "gemini-embedding-001", "", 0.7, 2048),
      AgentConfig("rag_agent", "An intelligent RAG agent.", "You are a helpful RAG assistant."),
      VectorStoreConfig("qdrant", "localhost", 6334, "agenticraggo", 768, ""),
      RetrieverConfig(10, 0.7, 512, 50),
      ServerConfig("0.0.0.0", 8001, "", 100, 60),
      TracingConfig(false, "http://localhost:4317", "agentic-rag-go"))
  }

  // ---------------------------------------------------------------------
  // Fields and their keys

  datatype Section = ModelSection | AgentSection | VectorStoreSection | RetrieverSection | ServerSection | TracingSection

  /** The configuration's fields, one constructor per tagged struct field. */
  datatype Field =
    | ModelName | ModelEmbeddingModel | ModelApiKey | ModelTemperature | ModelMaxTokens
    | AgentName | AgentDescription | AgentInstruction
    | StoreProvider | StoreUrl | StoreGrpcPort | StoreCollection | StoreVectorSize | StoreApiKey
    | TopK | MinScore | ChunkSize | ChunkOverlap
    | ServerHost | ServerPort | ServerApiKey | ServerRateLimit | ServerRateWindow
    | TracingEnabled | TracingEndpoint | TracingServiceName

  const AllFields: seq<Field> := [
    ModelName, ModelEmbeddingModel, ModelApiKey, ModelTemperature, ModelMaxTokens,
    AgentName, AgentDescription, AgentInstruction,
    StoreProvider, StoreUrl, StoreGrpcPort, StoreCollection, StoreVectorSize, StoreApiKey,
    TopK, MinScore, ChunkSize, ChunkOverlap,
    ServerHost, ServerPort, ServerApiKey, ServerRateLimit, ServerRateWindow,
    TracingEnabled, TracingEndpoint, TracingServiceName]

  lemma AllFieldsListed(f: Field)
    ensures f in AllFields
  {
  }

  /** The tag of a section. */
  function SectionName(s: Section): string {
    match s
    case ModelSection => "model"
    case AgentSection => "agent"
    case VectorStoreSection => "vectorstore"
    case RetrieverSection => "retriever"
    case ServerSection => "server"
    case TracingSection => "tracing"
  }

  function SectionOf(f: Field): Section {
    match f
    case ModelName | ModelEmbeddingModel | ModelApiKey | ModelTemperature | ModelMaxTokens => ModelSection
    case AgentName | AgentDescription | AgentInstruction => AgentSection
    case StoreProvider | StoreUrl | StoreGrpcPort | StoreCollection | StoreVectorSize | StoreApiKey => VectorStoreSection
    case TopK | MinScore | ChunkSize | ChunkOverlap => RetrieverSection
    case ServerHost | ServerPort | ServerApiKey | ServerRateLimit | ServerRateWindow => ServerSection
    case TracingEnabled | TracingEndpoint | TracingServiceName => TracingSection
  }

  /** The tag of a field within its section. */
  function FieldName(f: Field): string {
    match f
    case ModelName => "name"
    case ModelEmbeddingModel => "embedding_model"
    case ModelApiKey => "api_key"
    case ModelTemperature => "temperature"
    case ModelMaxTokens => "max_tokens"
    case AgentName => "name"
    case AgentDescription => "description"
    case AgentInstruction => "instruction"
    case StoreProvider => "provider"
    case StoreUrl => "url"
    case StoreGrpcPort => "grpc_port"
    case StoreCollection => "collection"
    case StoreVectorSize => "vector_size"
    case StoreApiKey => "api_key"
    case TopK => "top_k"
    case MinScore => "min_score"
    case ChunkSize => "chunk_size"
    case ChunkOverlap => "chunk_overlap"
    case ServerHost => "host"
    case ServerPort => "port"
    case ServerApiKey => "api_key"
    case ServerRateLimit => "rate_limit"
    case ServerRateWindow => "rate_window"
    case TracingEnabled => "enabled"
    case TracingEndpoint => "endpoint"
    case TracingServiceName => "service_name"
  }

  /** The dotted overlay key a field is decoded from. */
  function Key(f: Field): string {
    SectionName(SectionOf(f)) + "." + FieldName(f)
  }

  /** Section tags are lower-case and hold no underscore. */
  lemma SectionTagPlain(s: Section)
    ensures Text.HasNoUpper(SectionName(s)) && '_' !in SectionName(s)
  {
  }

  /** Field tags are lower-case. */
  lemma FieldTagLowerCase(f: Field)
    ensures Text.HasNoUpper(FieldName(f))
  {
    var sec := SectionOf(f);
    if sec == ModelSection || sec == AgentSection {
      ModelAndAgentTagsLowerCase(f);
    } else if sec == VectorStoreSection || sec == RetrieverSection {
      StoreAndRetrieverTagsLowerCase(f);
    } else {
      ServerAndTracingTagsLowerCase(f);
    }
  }

  lemma ModelAndAgentTagsLowerCase(f: Field)
    requires SectionOf(f) == ModelSection || SectionOf(f) == AgentSection
    ensures Text.HasNoUpper(FieldName(f))
  {
  }

  lemma StoreAndRetrieverTagsLowerCase(f: Field)
    requires SectionOf(f) == VectorStoreSection || SectionOf(f) == RetrieverSection
    ensures Text.HasNoUpper(FieldName(f))
  {
  }

  lemma ServerAndTracingTagsLowerCase(f: Field)
    requires SectionOf(f) == ServerSection || SectionOf(f) == TracingSection
    ensures Text.HasNoUpper(FieldName(f))
  {
  }

  // ---------------------------------------------------------------------
  // Field values

  datatype FieldValue = FString(s: string) | FInt(i: int) | FReal(r: real) | FBool(b: bool)

  datatype Kind = StringKind | IntKind | UintKind | RealKind | BoolKind

  function KindOf(f: Field): Kind {
    match f
    case ModelTemperature | MinScore => RealKind
    case ModelMaxTokens | StoreGrpcPort | TopK | ChunkSize | ChunkOverlap | ServerPort | ServerRateLimit | ServerRateWindow => IntKind
    case StoreVectorSize => UintKind
    case TracingEnabled => BoolKind
    case _ => StringKind
  }

  predicate HasKind(v: FieldValue, kind: Kind) {
    match kind
    case StringKind => v.FString?
    case IntKind => v.FInt?
    case UintKind => v.FInt? && v.i >= 0
    case RealKind => v.FReal?
    case BoolKind => v.FBool?
  }

  /** Reads a field. */
  function Get(cfg: Config, f: Field): (v: FieldValue)
    ensures HasKind(v, KindOf(f))
  {
    match f
    case ModelName => FString(cfg.model.name)
    case ModelEmbeddingModel => FString(cfg.model.embeddingModel)
    case ModelApiKey => FString(cfg.model.apiKey)
    case ModelTemperature => FReal(cfg.model.temperature)
    case ModelMaxTokens => FInt(cfg.model.maxTokens)
    case AgentName => FString(cfg.agent.name)
    case AgentDescription => FString(cfg.agent.description)
    case AgentInstruction => FString(cfg.agent.instruction)
    case StoreProvider => FString(cfg.vectorStore.provider)
    case StoreUrl => FString(cfg.vectorStore.url)
    case StoreGrpcPort => FInt(cfg.vectorStore.grpcPort)
    case StoreCollection => FString(cfg.vectorStore.collection)
    case StoreVectorSize => FInt(cfg.vectorStore.vectorSize)
    case StoreApiKey => FString(cfg.vectorStore.apiKey)
    case TopK => FInt(cfg.retriever.topK)
    case MinScore => FReal(cfg.retriever.minScore)
    case ChunkSize => FInt(cfg.retriever.chunkSize)
    case ChunkOverlap => FInt(cfg.retriever.chunkOverlap)
    case ServerHost => FString(cfg.server.host)
    case ServerPort => FInt(cfg.server.port)
    case ServerApiKey => FString(cfg.server.apiKey)
    case ServerRateLimit => FInt(cfg.server.rateLimit)
    case ServerRateWindow => FInt(cfg.server.rateWindow)
    case TracingEnabled => FBool(cfg.tracing.enabled)
    case TracingEndpoint => FString(cfg.tracing.endpoint)
    case TracingServiceName => FString(cfg.tracing.serviceName)
  }

  /** Writes a field with a value of its kind. */
  function Set(cfg: Config, f: Field, v: FieldValue): Config
    requires HasKind(v, KindOf(f))
  {
    match f
    case ModelName => cfg.(model := cfg.model.(name := v.s))
    case ModelEmbeddingModel => cfg.(model := cfg.model.(embeddingModel := v.s))
    case ModelApiKey => cfg.(model := cfg.model.(apiKey := v.s))
    case ModelTemperature => cfg.(model := cfg.model.(temperature := v.r))
    case ModelMaxTokens => cfg.(model := cfg.model.(maxTokens := v.i))
    case AgentName => cfg.(agent := cfg.agent.(name := v.s))
    case AgentDescription => cfg.(agent := cfg.agent.(description := v.s))
    case AgentInstruction => cfg.(agent := cfg.agent.(instruction := v.s))
    case StoreProvider => cfg.(vectorStore := cfg.vectorStore.(provider := v.s))
    case StoreUrl => cfg.(vectorStore := cfg.vectorStore.(url := v.s))
    case StoreGrpcPort => cfg.(vectorStore := cfg.vectorStore.(grpcPort := v.i))
    case StoreCollection => cfg.(vectorStore := cfg.vectorStore.(collection := v.s))
    case StoreVectorSize => cfg.(vectorStore := cfg.vectorStore.(vectorSize := v.i))
    case StoreApiKey => cfg.(vectorStore := cfg.vectorStore.(apiKey := v.s))
    case TopK => cfg.(retriever := cfg.retriever.(topK := v.i))
    case MinScore => cfg.(retriever := cfg.retriever.(minScore := v.r))
    case ChunkSize => cfg.(retriever := cfg.retriever.(chunkSize := v.i))
    case ChunkOverlap => cfg.(retriever := cfg.retriever.(chunkOverlap := v.i))
    case ServerHost => cfg.(server := cfg.server.(host := v.s))
    case ServerPort => cfg.(server := cfg.server.(port := v.i))
    case ServerApiKey => cfg.(server := cfg.server.(apiKey := v.s))
    case ServerRateLimit => cfg.(server := cfg.server.(rateLimit := v.i))
    case ServerRateWindow => cfg.(server := cfg.server.(rateWindow := v.i))
    case TracingEnabled => cfg.(tracing := cfg.tracing.(enabled := v.b))
    case TracingEndpoint => cfg.(tracing := cfg.tracing.(endpoint := v.s))
    case TracingServiceName => cfg.(tracing := cfg.tracing.(serviceName := v.s))
  }

  /** Writing a field changes that field and no other. */
  lemma GetSet(cfg: Config, f: Field, v: FieldValue, g: Field)
    requires HasKind(v, KindOf(f))
    ensures Get(Set(cfg, f, v), g) == if g == f then v else Get(cfg, g)
  {
    match SectionOf(f)
    case ModelSection => GetSetModel(cfg, f, v, g);
    case AgentSection => GetSetAgent(cfg, f, v, g);
    case VectorStoreSection => GetSetStore(cfg, f, v, g);
    case RetrieverSection => GetSetRetriever(cfg, f, v, g);
    case ServerSection => GetSetServer(cfg, f, v, g);
    case TracingSection => GetSetTracing(cfg, f, v, g);
  }

  lemma GetSetModel(cfg: Config, f: Field, v: FieldValue, g: Field)
    requires HasKind(v, KindOf(f)) && SectionOf(f) == ModelSection
    ensures Get(Set(cfg, f, v), g) == if g == f then v else Get(cfg, g)
  {
  }

  lemma GetSetAgent(cfg: Config, f: Field, v: FieldValue, g: Field)
    requires HasKind(v, KindOf(f)) && SectionOf(f) == AgentSection
    ensures Get(Set(cfg, f, v), g) == if g == f then v else Get(cfg, g)
  {
  }

  lemma GetSetStore(cfg: Config, f: Field, v: FieldValue, g: Field)
    requires HasKind(v, KindOf(f)) && SectionOf(f) == VectorStoreSection
    ensures Get(Set(cfg, f, v), g) == if g == f then v else Get(cfg, g)
  {
  }

  lemma GetSetRetriever(cfg: Config, f: Field, v: FieldValue, g: Field)
    requires HasKind(v, KindOf(f)) && SectionOf(f) == RetrieverSection
    ensures Get(Set(cfg, f, v), g) == if g == f then v else Get(cfg, g)
  {
  }

  lemma GetSetServer(cfg: Config, f: Field, v: FieldValue, g: Field)
    requires HasKind(v, KindOf(f)) && SectionOf(f) == ServerSection
    ensures Get(Set(cfg, f, v), g) == if g == f then v else Get(cfg, g)
  {
  }

  lemma GetSetTracing(cfg: Config, f: Field, v: FieldValue, g: Field)
    requires HasKind(v, KindOf(f)) && SectionOf(f) == TracingSection
    ensures Get(Set(cfg, f, v), g) == if g == f then v else Get(cfg, g)
  {
  }

  // ---------------------------------------------------------------------
  // The overlay and its decoding

  /** An overlay value: what the YAML parser produces, or an environment
      string. `KComposite` stands for a list or a mapping at a leaf key. */
  datatype KValue = KString(s: string) | KInt(i: int) | KFloat(r: real) | KBool(b: bool) | KComposite

  type Overlay = map<string, KValue>

  /** The weakly-typed conversions of the decoding library, for a value
      whose kind differs from the field's; `None` is a decoding error. */
  datatype Coercion = Coercion(
    toString: KValue -> Option<string>,
    toInt: KValue -> Option<int>,
    toUint: KValue -> Option<nat>,
    toReal: KValue -> Option<real>,
    toBool: KValue -> Option<bool>)

  /** Decodes an overlay value into a field of the given kind. A value that
      already has the field's kind is kept as it is. */
  function Decode(c: Coercion, kind: Kind, v: KValue): (r: Option<FieldValue>)
    ensures r.Some? ==> HasKind(r.value, kind)
    ensures kind == StringKind && v.KString? ==> r == Some(FString(v.s))
    ensures kind == IntKind && v.KInt? ==> r == Some(FInt(v.i))
    ensures kind == RealKind && v.KFloat? ==> r == Some(FReal(v.r))
    ensures kind == BoolKind && v.KBool? ==> r == Some(FBool(v.b))
  {
    match kind
    case StringKind =>
      if v.KString? then Some(FString(v.s))
      else if c.toString(v).Some? then Some(FString(c.toString(v).value)) else None
    case IntKind =>
      if v.KInt? then Some(FInt(v.i))
      else if c.toInt(v).Some? then Some(FInt(c.toInt(v).value)) else None
    case UintKind =>
      if v.KInt? && v.i >= 0 then Some(FInt(v.i))
      else if c.toUint(v).Some? then Some(FInt(c.toUint(v).value)) else None
    case RealKind =>
      if v.KFloat? then Some(FReal(v.r))
      else if c.toReal(v).Some? then Some(FReal(c.toReal(v).value)) else None
    case BoolKind =>
      if v.KBool? then Some(FBool(v.b))
      else if c.toBool(v).Some? then Some(FBool(c.toBool(v).value)) else None
  }

  /** A field can be decoded: its key is absent, or its value converts. */
  predicate Decodable(k: Overlay, c: Coercion, f: Field) {
    Key(f) !in k || Decode(c, KindOf(f), k[Key(f)]).Some?
  }

  /** What decoding leaves in a decodable field: the converted overlay value
      when the key is present, the value it had otherwise. */
  function Expected(k: Overlay, c: Coercion, cfg: Config, f: Field): FieldValue {
    if Key(f) in k && Decode(c, KindOf(f), k[Key(f)]).Some? then Decode(c, KindOf(f), k[Key(f)]).value
    else Get(cfg, f)
  }

  function DecodeError(f: Field): string {
    "cannot decode configuration key " + Key(f)
  }

  /** Decodes one field. */
  function Step(k: Overlay, c: Coercion, cfg: Config, f: Field): Result<Config> {
    if Key(f) !in k then Ok(cfg)
    else
      match Decode(c, KindOf(f), k[Key(f)])
      case None => Err(DecodeError(f))
      case Some(v) => Ok(Set(cfg, f, v))
  }

  /** Decodes the listed fields in order, stopping at the first failure. */
  function UnmarshalFields(k: Overlay, c: Coercion, cfg: Config, fs: seq<Field>): Result<Config>
    decreases |fs|
  {
    if |fs| == 0 then Ok(cfg)
    else
      var next :- Step(k, c, cfg, fs[0]);
      UnmarshalFields(k, c, next, fs[1..])
  }

  /** Decoding a list of fields succeeds exactly when each of them is
      decodable, and then sets each listed field to its expected value and
      leaves every other field alone. */
  lemma {:induction false} UnmarshalFieldsSpec(k: Overlay, c: Coercion, cfg: Config, fs: seq<Field>)
    ensures UnmarshalFields(k, c, cfg, fs).Ok? <==> forall f :: f in fs ==> Decodable(k, c, f)
    ensures UnmarshalFields(k, c, cfg, fs).Ok? ==>
              forall g :: Get(UnmarshalFields(k, c, cfg, fs).value, g) == if g in fs then Expected(k, c, cfg, g) else Get(cfg, g)
    decreases |fs|
  {
    if |fs| > 0 {
      var f := fs[0];
      var step := Step(k, c, cfg, f);
      assert forall g :: g in fs <==> g == f || g in fs[1..];
      assert step.Ok? <==> Decodable(k, c, f);
      if step.Ok? {
        var next := step.value;
        UnmarshalFieldsSpec(k, c, next, fs[1..]);
        forall g
          ensures Get(next, g) == if g == f then Expected(k, c, cfg, g) else Get(cfg, g)
          ensures Expected(k, c, next, g) == Expected(k, c, cfg, g)
        {
          if Key(f) in k {
            GetSet(cfg, f, Decode(c, KindOf(f), k[Key(f)]).value, g);
          }
        }
      }
    }
  }

  /** `Unmarshal`: decodes the overlay onto `cfg`, field by field. */
  function Unmarshal(k: Overlay, c: Coercion, cfg: Config): Result<Config> {
    UnmarshalFields(k, c, cfg, AllFields)
  }

  /** Decoding succeeds exactly when every present key's value converts,
      and then overwrites exactly the fields whose key is present. */
  lemma UnmarshalOverwritesPresentKeys(k: Overlay, c: Coercion, cfg: Config)
    ensures Unmarshal(k, c, cfg).Ok? <==> forall f :: Decodable(k, c, f)
    ensures Unmarshal(k, c, cfg).Ok? ==> forall f :: Get(Unmarshal(k, c, cfg).value, f) == Expected(k, c, cfg, f)
  {
    UnmarshalFieldsSpec(k, c, cfg, AllFields);
    forall f
      ensures f in AllFields
    {
      AllFieldsListed(f);
    }
  }

  /** An overlay that holds no field key leaves the configuration as it is. */
  lemma {:induction false} UnmarshalWithoutFieldKeys(k: Overlay, c: Coercion, cfg: Config, fs: seq<Field>)
    requires forall f :: Key(f) !in k
    ensures UnmarshalFields(k, c, cfg, fs) == Ok(cfg)
    decreases |fs|
  {
    if |fs| > 0 {
      UnmarshalWithoutFieldKeys(k, c, cfg, fs[1..]);
    }
  }

  // ---------------------------------------------------------------------
  // The environment

  predicate DistinctNames(env: seq<(string, string)>) {
    forall i, j :: 0 <= i < j < |env| ==> env[i].0 != env[j].0
  }

  /** The process environment as the Go runtime exposes it: name/value
      pairs in their original order, one per name (the runtime drops later
      duplicates of a name before `os.Environ` and `os.Getenv` see them). */
  type Env = env: seq<(string, string)> | DistinctNames(env) witness []

  /** `os.Getenv`: the value of the variable, or "" when it is unset. */
  function Getenv(env: seq<(string, string)>, name: string): (v: string)
    ensures (forall i :: 0 <= i < |env| ==> env[i].0 != name) ==> v == ""
    decreases |env|
  {
    if |env| == 0 then "" else if env[0].0 == name then env[0].1 else Getenv(env[1..], name)
  }

  /** `os.Getenv` finds the value the variable was set to. */
  lemma {:induction false} GetenvFinds(env: Env, j: nat)
    requires j < |env|
    ensures Getenv(env, env[j].0) == env[j].1
    decreases j
  {
    if j > 0 {
      var tail: Env := env[1..];
      GetenvFinds(tail, j - 1);
    }
  }

  /** The transform the environment layer applies to a variable's name. */
  type Transform = string -> string

  const EnvPrefix := "APP_"

  /** A variable contributes `key` to the environment layer: its name has
      the prefix and transforms to that key, which is not empty. */
  predicate Exports(name: string, t: Transform, key: string) {
    EnvPrefix <= name && t(name) == key && key != ""
  }

  /** The environment layer: each prefixed variable, in environment order,
      sets its transformed key to its value as a string, a later variable
      overwriting an earlier one with the same transformed key. */
  function EnvLayer(env: seq<(string, string)>, t: Transform): Overlay
    decreases |env|
  {
    if |env| == 0 then map[]
    else
      var m := EnvLayer(env[..|env| - 1], t);
      var (name, value) := env[|env| - 1];
      if EnvPrefix <= name && t(name) != "" then m[t(name) := KString(value)] else m
  }

  /** A key is in the environment layer exactly when some variable exports it. */
  lemma {:induction false} EnvLayerKeys(env: seq<(string, string)>, t: Transform, key: string)
    ensures key in EnvLayer(env, t) <==> exists i :: 0 <= i < |env| && Exports(env[i].0, t, key)
    decreases |env|
  {
    if |env| > 0 {
      var init := env[..|env| - 1];
      EnvLayerKeys(init, t, key);
      assert forall i :: 0 <= i < |init| ==> init[i] == env[i];
      if exists i :: 0 <= i < |env| && Exports(env[i].0, t, key) {
        var i :| 0 <= i < |env| && Exports(env[i].0, t, key);
        if i < |init| {
          assert Exports(init[i].0, t, key);
        }
      }
    }
  }

  /** The one variable exporting a key gives that key its value. */
  lemma {:induction false} EnvLayerValue(env: seq<(string, string)>, t: Transform, key: string, j: nat)
    requires j < |env| && Exports(env[j].0, t, key)
    requires forall i :: 0 <= i < |env| && i != j ==> !Exports(env[i].0, t, key)
    ensures key in EnvLayer(env, t) && EnvLayer(env, t)[key] == KString(env[j].1)
    decreases |env|
  {
    var init := env[..|env| - 1];
    assert forall i :: 0 <= i < |init| ==> init[i] == env[i];
    if j < |init| {
      EnvLayerValue(init, t, key, j);
    }
  }

  // ---------------------------------------------------------------------
  // Loading

  /** The state of the YAML file: no path given, a path that could not be
      read or parsed (a warning is logged and the file is skipped), or the
      parsed file flattened to dotted keys. */
  datatype YamlFile = NoPath | Unloadable(reason: string) | Loaded(values: Overlay)

  function YamlLayer(y: YamlFile): Overlay {
    if y.Loaded? then y.values else map[]
  }

  /** The overlay: the environment layer merged over the YAML layer. */
  function Merged(y: YamlFile, env: Env, t: Transform): (k: Overlay)
    ensures forall key :: key in k <==> key in YamlLayer(y) || key in EnvLayer(env, t)
    ensures forall key :: key in EnvLayer(env, t) ==> k[key] == EnvLayer(env, t)[key]
    ensures forall key :: key in YamlLayer(y) && key !in EnvLayer(env, t) ==> k[key] == YamlLayer(y)[key]
  {
    YamlLayer(y) + EnvLayer(env, t)
  }

  /** The four unprefixed variables, applied to the defaults before the
      overlay is decoded: `GOOGLE_API_KEY` fills an empty model key,
      `QDRANT_URL` replaces the store URL, and `PHOENIX_COLLECTOR_ENDPOINT`
      then `OTEL_EXPORTER_OTLP_ENDPOINT` each replace the tracing endpoint and
      enable tracing; an empty variable counts as unset. */
  function ApplySpecialEnv(cfg: Config, env: Env): (r: Config)
    ensures r.model.apiKey == if cfg.model.apiKey == "" then Getenv(env, "GOOGLE_API_KEY") else cfg.model.apiKey
    ensures r.vectorStore.url == if Getenv(env, "QDRANT_URL") != "" then Getenv(env, "QDRANT_URL") else cfg.vectorStore.url
    ensures r.tracing.endpoint ==
              if Getenv(env, "OTEL_EXPORTER_OTLP_ENDPOINT") != "" then Getenv(env, "OTEL_EXPORTER_OTLP_ENDPOINT")
              else if Getenv(env, "PHOENIX_COLLECTOR_ENDPOINT") != "" then Getenv(env, "PHOENIX_COLLECTOR_ENDPOINT")
              else cfg.tracing.endpoint
    ensures r.tracing.enabled <==>
              cfg.tracing.enabled || Getenv(env, "OTEL_EXPORTER_OTLP_ENDPOINT") != "" || Getenv(env, "PHOENIX_COLLECTOR_ENDPOINT") != ""
    ensures forall f :: f !in {ModelApiKey, StoreUrl, TracingEndpoint, TracingEnabled} ==> Get(r, f) == Get(cfg, f)
  {
    var google := Getenv(env, "GOOGLE_API_KEY");
    var a := if google != "" && cfg.model.apiKey == "" then cfg.(model := cfg.model.(apiKey := google)) else cfg;
    var qdrant := Getenv(env, "QDRANT_URL");
    var b := if qdrant != "" then a.(vectorStore := a.vectorStore.(url := qdrant)) else a;
    var phoenix := Getenv(env, "PHOENIX_COLLECTOR_ENDPOINT");
    var d := if phoenix != "" then b.(tracing := b.tracing.(endpoint := phoenix, enabled := true)) else b;
    var otel := Getenv(env, "OTEL_EXPORTER_OTLP_ENDPOINT");
    var r := if otel != "" then d.(tracing := d.tracing.(endpoint := otel, enabled := true)) else d;
    SpecialEnvFrame(cfg, r);
    r
  }

  /** A configuration that differs from another at most in the model key,
      the store URL and the tracing switch and endpoint agrees with it on
      every other field. */
  lemma SpecialEnvFrame(cfg: Config, r: Config)
    requires r.agent == cfg.agent && r.retriever == cfg.retriever && r.server == cfg.server
    requires r.model.(apiKey := cfg.model.apiKey) == cfg.model
    requires r.vectorStore.(url := cfg.vectorStore.url) == cfg.vectorStore
    requires r.tracing.serviceName == cfg.tracing.serviceName
    ensures forall f :: f !in {ModelApiKey, StoreUrl, TracingEndpoint, TracingEnabled} ==> Get(r, f) == Get(cfg, f)
  {
  }

  /** `Load` with a given name transform for the environment layer. */
  function LoadWith(t: Transform, y: YamlFile, env: Env, c: Coercion): (r: Result<Config>)
    ensures r.Ok? <==> forall f :: Decodable(Merged(y, env, t), c, f)
    ensures r.Ok? ==> forall f :: Get(r.value, f) == Expected(Merged(y, env, t), c, ApplySpecialEnv(Defaults(), env), f)
  {
    UnmarshalOverwritesPresentKeys(Merged(y, env, t), c, ApplySpecialEnv(Defaults(), env));
    Unmarshal(Merged(y, env, t), c, ApplySpecialEnv(Defaults(), env))
  }

  /** The name transform as written: drop the prefix, lower-case, and turn
      every underscore into a key separator. */
  function EnvKeyAsWritten(name: string): (key: string)
    ensures '_' !in key
  {
    Text.ReplaceAll(Text.ToLower(Text.TrimPrefix(name, EnvPrefix)), '_', '.')
  }

  /** The name transform as intended: only the first underscore separates
      the section from the field, so field tags keep theirs. */
  function EnvKey(name: string): string {
    Text.ReplaceFirst(Text.ToLower(Text.TrimPrefix(name, EnvPrefix)), '_', '.')
  }

  /** `Load` as written. */
  function LoadAsWritten(y: YamlFile, env: Env, c: Coercion): Result<Config> {
    LoadWith(EnvKeyAsWritten, y, env, c)
  }

  /** `Load` with the intended name transform; the rest of the model uses it. */
  function Load(y: YamlFile, env: Env, c: Coercion): Result<Config> {
    LoadWith(EnvKey, y, env, c)
  }

  /** Under any name transform, with no file and no variables the defaults
      come back unchanged; an unreadable file is skipped, not an error. */
  lemma DefaultsWithoutSources(t: Transform, reason: string, c: Coercion)
    ensures LoadWith(t, NoPath, [], c) == Ok(Defaults())
    ensures LoadWith(t, Unloadable(reason), [], c) == Ok(Defaults())
  {
    NoSpecialEnv(Defaults());
    assert Merged(NoPath, [], t) == map[];
    assert Merged(Unloadable(reason), [], t) == map[];
    UnmarshalWithoutFieldKeys(map[], c, Defaults(), AllFields);
  }

  /** Without variables the unprefixed step changes nothing. */
  lemma NoSpecialEnv(cfg: Config)
    ensures ApplySpecialEnv(cfg, []) == cfg
  {
  }

  /** Under any name transform, a prefixed variable that is the only one
      whose name transforms to a field's key sets that field, whatever the
      file says. As written, no name transforms to a key whose field tag
      has an underscore (`UnderscoreFieldsUnreachableAsWritten`), so there
      this holds for the other fields only. */
  lemma EnvOverridesYaml(t: Transform, y: YamlFile, env: Env, c: Coercion, f: Field, j: nat)
    requires j < |env| && Exports(env[j].0, t, Key(f))
    requires forall i :: 0 <= i < |env| && i != j ==> !Exports(env[i].0, t, Key(f))
    ensures LoadWith(t, y, env, c).Ok? ==>
              Decode(c, KindOf(f), KString(env[j].1)).Some?
              && Get(LoadWith(t, y, env, c).value, f) == Decode(c, KindOf(f), KString(env[j].1)).value
  {
    var k := Merged(y, env, t);
    var key := Key(f);
    EnvLayerValue(env, t, key, j);
    assert key in k && k[key] == KString(env[j].1);
    var r := LoadWith(t, y, env, c);
    if r.Ok? {
      assert Decodable(k, c, f);
      assert Get(r.value, f) == Expected(k, c, ApplySpecialEnv(Defaults(), env), f);
    }
  }

  /** Under any name transform, a file value that no variable's name
      transforms to is decoded into its field. */
  lemma YamlUsedWithoutEnv(t: Transform, values: Overlay, env: Env, c: Coercion, f: Field)
    requires Key(f) in values
    requires forall i :: 0 <= i < |env| ==> !Exports(env[i].0, t, Key(f))
    ensures LoadWith(t, Loaded(values), env, c).Ok? ==>
              Decode(c, KindOf(f), values[Key(f)]).Some?
              && Get(LoadWith(t, Loaded(values), env, c).value, f) == Decode(c, KindOf(f), values[Key(f)]).value
  {
    var k := Merged(Loaded(values), env, t);
    var key := Key(f);
    EnvLayerKeys(env, t, key);
    assert key in k && k[key] == values[key];
    var r := LoadWith(t, Loaded(values), env, c);
    if r.Ok? {
      assert Decodable(k, c, f);
      assert Get(r.value, f) == Expected(k, c, ApplySpecialEnv(Defaults(), env), f);
    }
  }

  /** Under any name transform, a field no source names keeps what the
      unprefixed variables left in the defaults, so `GOOGLE_API_KEY`,
      `QDRANT_URL` and the tracing endpoints take effect only where neither
      the file nor a prefixed variable sets the key. */
  lemma SpecialEnvOnlyWithoutKey(t: Transform, y: YamlFile, env: Env, c: Coercion, f: Field)
    requires Key(f) !in YamlLayer(y)
    requires forall i :: 0 <= i < |env| ==> !Exports(env[i].0, t, Key(f))
    ensures LoadWith(t, y, env, c).Ok? ==> Get(LoadWith(t, y, env, c).value, f) == Get(ApplySpecialEnv(Defaults(), env), f)
  {
    EnvLayerKeys(env, t, Key(f));
  }

  const TracingEnv: Env := [("PHOENIX_COLLECTOR_ENDPOINT", "http://phoenix:6006"), ("OTEL_EXPORTER_OTLP_ENDPOINT", "http://otel:4317")]

  /** Variables without the prefix contribute nothing to the overlay. */
  lemma {:induction false} UnprefixedEnvContributesNothing(env: seq<(string, string)>, t: Transform)
    requires forall i :: 0 <= i < |env| ==> !(EnvPrefix <= env[i].0)
    ensures EnvLayer(env, t) == map[]
    decreases |env|
  {
    if |env| > 0 {
      var init := env[..|env| - 1];
      assert forall i :: 0 <= i < |init| ==> init[i] == env[i];
      UnprefixedEnvContributesNothing(init, t);
    }
  }

  /** Under any name transform, with both tracing variables set, the OTLP
      endpoint wins and tracing is enabled; nothing else changes. */
  lemma OtelBeatsPhoenix(t: Transform, c: Coercion)
    ensures LoadWith(t, NoPath, TracingEnv, c) == Ok(Defaults().(tracing := TracingConfig(true, "http://otel:4317", "agentic-rag-go")))
  {
    var env := TracingEnv;
    assert env[0].0[0] == 'P' && env[1].0[0] == 'O';
    UnprefixedEnvContributesNothing(env, t);
    LoadWithoutOverlay(t, NoPath, env, c);
    TracingEnvApplied();
  }

  /** With an empty overlay, loading returns what the unprefixed variables
      made of the defaults. */
  lemma LoadWithoutOverlay(t: Transform, y: YamlFile, env: Env, c: Coercion)
    requires YamlLayer(y) == map[] && EnvLayer(env, t) == map[]
    ensures LoadWith(t, y, env, c) == Ok(ApplySpecialEnv(Defaults(), env))
  {
    assert Merged(y, env, t) == map[];
    UnmarshalWithoutFieldKeys(map[], c, ApplySpecialEnv(Defaults(), env), AllFields);
  }

  /** The unprefixed step alone: the later-applied OTLP endpoint wins. */
  lemma TracingEnvApplied()
    ensures ApplySpecialEnv(Defaults(), TracingEnv) == Defaults().(tracing := TracingConfig(true, "http://otel:4317", "agentic-rag-go"))
  {
    var env := TracingEnv;
    GetenvFinds(env, 0);
    GetenvFinds(env, 1);
    assert Getenv(env, "GOOGLE_API_KEY") == "" && Getenv(env, "QDRANT_URL") == "";
  }

  /** The environment name that sets a field: the prefix, the section tag
      and the field tag, upper-cased and joined by underscores. */
  function EnvName(f: Field): string {
    EnvPrefix + Text.ToUpper(SectionName(SectionOf(f))) + "_" + Text.ToUpper(FieldName(f))
  }

  /** Under the intended transform every field has a variable that sets it. */
  lemma EveryFieldReachable(f: Field)
    ensures EnvPrefix <= EnvName(f)
    ensures EnvKey(EnvName(f)) == Key(f)
  {
    var sec := SectionName(SectionOf(f));
    var name := FieldName(f);
    SectionTagPlain(SectionOf(f));
    FieldTagLowerCase(f);
    var rest := Text.ToUpper(sec) + "_" + Text.ToUpper(name);
    assert EnvName(f) == EnvPrefix + rest;
    assert Text.TrimPrefix(EnvName(f), EnvPrefix) == rest;
    Text.JoinedUpperRoundTrip(sec, name);
  }

  /** As written, no variable can set a field whose tag holds an underscore:
      such a field keeps what the file or the unprefixed variables gave it. */
  lemma UnderscoreFieldsUnreachableAsWritten(y: YamlFile, env: Env, c: Coercion, f: Field)
    requires '_' in FieldName(f)
    ensures Key(f) !in EnvLayer(env, EnvKeyAsWritten)
    ensures Key(f) !in YamlLayer(y) && LoadAsWritten(y, env, c).Ok? ==>
              Get(LoadAsWritten(y, env, c).value, f) == Get(ApplySpecialEnv(Defaults(), env), f)
  {
    assert '_' in Key(f);
    EnvLayerKeys(env, EnvKeyAsWritten, Key(f));
  }

  /** The two transforms agree on names with at most one underscore after
      the prefix, so the intended one keeps every name that works as written. */
  lemma TransformsAgreeOnSingleUnderscore(name: string)
    requires var s := Text.ToLower(Text.TrimPrefix(name, EnvPrefix));
             forall i, j :: 0 <= i < j < |s| && s[i] == '_' ==> s[j] != '_'
    ensures EnvKey(name) == EnvKeyAsWritten(name)
  {
    Text.ReplaceFirstIsReplaceAllWhenUnique(Text.ToLower(Text.TrimPrefix(name, EnvPrefix)), '_', '.');
  }

  const EmbeddingModelEnv: Env := [("APP_MODEL_EMBEDDING_MODEL", "text-embedding-004")]

  /** No field's key has two dots. */
  lemma NoFieldKeyIsDotted(g: Field)
    ensures Key(g) != "model.embedding.model"
  {
    if SectionOf(g) != ModelSection {
      OtherSectionKey(g);
    } else if '_' in FieldName(g) {
      assert '_' in Key(g);
    } else {
      assert g == ModelName || g == ModelTemperature;
      assert |Key(g)| != 21;
    }
  }

  /** Only the embedding-model field has the key `model.embedding_model`. */
  lemma EmbeddingModelKeyUnique(g: Field)
    ensures Key(g) == "model.embedding_model" <==> g == ModelEmbeddingModel
  {
    match g
    case ModelEmbeddingModel =>
      EmbeddingModelKey();
    case ModelName | ModelApiKey | ModelTemperature | ModelMaxTokens =>
      assert |Key(g)| != 21;
    case _ =>
      OtherSectionKey(g);
  }

  /** A field outside the model section has a key that does not start with
      the letter `m`. */
  lemma OtherSectionKey(g: Field)
    requires SectionOf(g) != ModelSection
    ensures |Key(g)| > 0 && Key(g)[0] != 'm'
  {
    assert Key(g)[0] == SectionName(SectionOf(g))[0];
  }

  /** The discrepancy, as written: `APP_MODEL_EMBEDDING_MODEL` is ignored and
      every field, the embedding model included, keeps its default. */
  lemma EmbeddingModelIgnoredAsWritten(c: Coercion)
    ensures LoadAsWritten(NoPath, EmbeddingModelEnv, c) == Ok(Defaults())
  {
    var k := Merged(NoPath, EmbeddingModelEnv, EnvKeyAsWritten);
    EmbeddingModelOverlayAsWritten();
    forall g
      ensures Key(g) !in k
    {
      NoFieldKeyIsDotted(g);
    }
    EmbeddingModelEnvNotSpecial();
    UnmarshalWithoutFieldKeys(k, c, Defaults(), AllFields);
  }

  /** As written, the variable lands on a key with two dots. */
  lemma EmbeddingModelOverlayAsWritten()
    ensures Merged(NoPath, EmbeddingModelEnv, EnvKeyAsWritten) == map["model.embedding.model" := KString("text-embedding-004")]
  {
    var env := EmbeddingModelEnv;
    assert env[..0] == [];
    EmbeddingModelKeyAsWritten();
  }

  /** The three steps of the as-written transform on `APP_MODEL_EMBEDDING_MODEL`. */
  lemma EmbeddingModelKeyAsWritten()
    ensures EnvKeyAsWritten("APP_MODEL_EMBEDDING_MODEL") == "model.embedding.model"
  {
    TrimEmbeddingModelName();
    LowerEmbeddingModelName();
    DotEmbeddingModelName();
  }

  lemma DotEmbeddingModelName()
    ensures Text.ReplaceAll("model_embedding_model", '_', '.') == "model.embedding.model"
  {
  }

  /** The first two steps on the variable's name, each on a literal of its
      own so that the solver unfolds only the one helper it needs. */
  lemma TrimEmbeddingModelName()
    ensures Text.TrimPrefix("APP_MODEL_EMBEDDING_MODEL", EnvPrefix) == "MODEL_EMBEDDING_MODEL"
  {
    assert "APP_MODEL_EMBEDDING_MODEL" == EnvPrefix + "MODEL_EMBEDDING_MODEL";
  }

  lemma LowerEmbeddingModelName()
    ensures Text.ToLower("MODEL_EMBEDDING_MODEL") == "model_embedding_model"
  {
  }

  /** The variable is none of the four unprefixed ones. */
  lemma EmbeddingModelEnvNotSpecial()
    ensures ApplySpecialEnv(Defaults(), EmbeddingModelEnv) == Defaults()
  {
  }

  /** The variable's name is the one the embedding-model field answers to. */
  lemma EmbeddingModelEnvName()
    ensures EnvName(ModelEmbeddingModel) == EmbeddingModelEnv[0].0
    ensures Key(ModelEmbeddingModel) == "model.embedding_model"
  {
    assert EnvName(ModelEmbeddingModel) == EnvPrefix + Text.ToUpper("model") + "_" + Text.ToUpper("embedding_model");
    UpperEmbeddingModelTags();
    EmbeddingModelNameJoined();
    EmbeddingModelKey();
  }

  /** The variable's name, assembled from its literal pieces. */
  lemma EmbeddingModelNameJoined()
    ensures EnvPrefix + "MODEL" + "_" + "EMBEDDING_MODEL" == "APP_MODEL_EMBEDDING_MODEL"
  {
  }

  /** The embedding-model field's key, from its two tags. */
  lemma EmbeddingModelKey()
    ensures Key(ModelEmbeddingModel) == "model.embedding_model"
  {
    assert Key(ModelEmbeddingModel) == "model" + "." + "embedding_model";
  }

  /** The field's tags upper-cased, on literals of their own. */
  lemma UpperEmbeddingModelTags()
    ensures Text.ToUpper("model") == "MODEL"
    ensures Text.ToUpper("embedding_model") == "EMBEDDING_MODEL"
  {
  }

  /** The same variable under the intended transform sets the model. */
  lemma EmbeddingModelSetAsIntended(c: Coercion)
    ensures Load(NoPath, EmbeddingModelEnv, c).Ok?
    ensures Load(NoPath, EmbeddingModelEnv, c).value.model.embeddingModel == "text-embedding-004"
  {
    var env := EmbeddingModelEnv;
    var f := ModelEmbeddingModel;
    EmbeddingModelEnvName();
    EveryFieldReachable(f);
    assert Exports(env[0].0, EnvKey, Key(f));
    EnvLayerValue(env, EnvKey, Key(f), 0);
    var k := Merged(NoPath, env, EnvKey);
    forall g
      ensures Decodable(k, c, g)
    {
      EnvLayerKeys(env, EnvKey, Key(g));
      EmbeddingModelKeyUnique(g);
    }
    EnvOverridesYaml(EnvKey, NoPath, env, c, f, 0);
  }
}
