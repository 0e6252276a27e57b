/** model_registry.py: a fixed configuration table and a process-wide memo
    table of client instances, filled lazily by `get_model`. */
module Registry {
  import opened Wrappers

  /** The client class a configuration entry names. */
  datatype ClientClass = QwenVLClient | GLM4VClient

  /** One entry of `MODEL_CONFIGS`; the API key comes from the environment
      and may be absent (`None`) or empty. */
  datatype ModelConfig = ModelConfig(clientClass: ClientClass, apiKey: Option<string>, baseUrl: string, defaultModel: string)

  /** The two `ValueError`s `get_model` raises. */
  datatype RegistryError =
    | ModelNotFound(name: string, available: seq<string>)
    | MissingApiKey(name: string)

  /** `MODEL_CONFIGS`, in definition order, given the two environment variables
      ALIYUN_BAILIAN_API_KEY and ZHIPUAI_API_KEY. */
  function ModelConfigs(bailianKey: Option<string>, zhipuKey: Option<string>): (configs: seq<(string, ModelConfig)>)
    ensures Names(configs) == ["qwen-vl", "glm-4v"]
    ensures Lookup(configs, "qwen-vl").Some? && Lookup(configs, "qwen-vl").value.apiKey == bailianKey
    ensures Lookup(configs, "glm-4v").Some? && Lookup(configs, "glm-4v").value.apiKey == zhipuKey
  {
    [ ("qwen-vl", ModelConfig(QwenVLClient, bailianKey, "https://dashscope.aliyuncs.com/compatible-mode/v1", "qwen-vl-max-latest")),
      ("glm-4v", ModelConfig(GLM4VClient, zhipuKey, "https://open.bigmodel.cn/api/paas/v4", "glm-4v-plus")) ]
  }

  /** The keys of a configuration table, in order. */
  function Names(configs: seq<(string, ModelConfig)>): (names: seq<string>)
    ensures |names| == |configs|
    ensures forall i :: 0 <= i < |configs| ==> names[i] == configs[i].0
  {
    if |configs| == 0 then [] else [configs[0].0] + Names(configs[1..])
  }

  /** `MODEL_CONFIGS.get(name)`. */
  function Lookup(configs: seq<(string, ModelConfig)>, name: string): (r: Option<ModelConfig>)
    ensures r.Some? <==> name in Names(configs)
    ensures r.Some? ==> (name, r.value) in configs
  {
    if |configs| == 0 then None
    else if configs[0].0 == name then Some(configs[0].1)
    else Lookup(configs[1..], name)
  }

  /** Python truthiness of the key: neither `None` nor `""`. */
  function HasApiKey(c: ModelConfig): (present: bool)
    ensures !present <==> c.apiKey == None || c.apiKey == Some("")
  {
    c.apiKey.Some? && c.apiKey.value != ""
  }

  /** The checks `get_model` makes on an uncached name before building a client. */
  function CheckConfig(configs: seq<(string, ModelConfig)>, name: string): (r: Result<ModelConfig, RegistryError>)
    ensures r.Success? <==> Lookup(configs, name).Some? && HasApiKey(Lookup(configs, name).value)
    ensures r.Success? ==> r.value == Lookup(configs, name).value
    ensures name !in Names(configs) ==> r == Failure(ModelNotFound(name, Names(configs)))
    ensures name in Names(configs) && !HasApiKey(Lookup(configs, name).value) ==> r == Failure(MissingApiKey(name))
  {
    match Lookup(configs, name)
    case None => Failure(ModelNotFound(name, Names(configs)))
    case Some(config) =>
      if !HasApiKey(config) then Failure(MissingApiKey(name)) else Success(config)
  }

  /** A client built by `get_model`; the vendor SDK behind it is not modelled. */
  class ModelClient {
    const clientClass: ClientClass
    const apiKey: string
    const baseUrl: string
    const defaultModel: string

    constructor(clientClass: ClientClass, apiKey: string, baseUrl: string, defaultModel: string)
      ensures this.clientClass == clientClass && this.apiKey == apiKey
      ensures this.baseUrl == baseUrl && this.defaultModel == defaultModel
    {
      this.clientClass := clientClass;
      this.apiKey := apiKey;
      this.baseUrl := baseUrl;
      this.defaultModel := defaultModel;
    }
  }

  /** `client` was built from the fields of `config`. */
  predicate BuiltFrom(client: ModelClient, config: ModelConfig)
  {
    && config.apiKey.Some?
    && client.clientClass == config.clientClass
    && client.apiKey == config.apiKey.value
    && client.baseUrl == config.baseUrl
    && client.defaultModel == config.defaultModel
  }

  /** `MODEL_CONFIGS` together with `_MODEL_INSTANCES`. */
  class ModelRegistry {
    const configs: seq<(string, ModelConfig)>
    var instances: map<string, ModelClient>

    /** Every cached name is configured, has a key, and its instance was built
        from its configuration. */
    ghost predicate Valid()
      reads this
    {
      forall name :: name in instances ==>
        && CheckConfig(configs, name).Success?
        && BuiltFrom(instances[name], CheckConfig(configs, name).value)
    }

    /** The module at import time: the configuration table and an empty cache. */
    constructor(bailianKey: Option<string>, zhipuKey: Option<string>)
      ensures Valid()
      ensures configs == ModelConfigs(bailianKey, zhipuKey) && instances == map[]
    {
      configs := ModelConfigs(bailianKey, zhipuKey);
      instances := map[];
    }

    /** `get_model`: a cached instance is returned as is; otherwise the name
        must be configured with a key, and exactly one new instance is cached. */
    method GetModel(name: string) returns (r: Result<ModelClient, RegistryError>)
      requires Valid()
      modifies this`instances
      ensures Valid()
      ensures name in old(instances) ==> r == Success(old(instances)[name]) && instances == old(instances)
      ensures name !in old(instances) && CheckConfig(configs, name).Failure? ==>
                r == Failure(CheckConfig(configs, name).error) && instances == old(instances)
      ensures name !in old(instances) && CheckConfig(configs, name).Success? ==>
                && r.Success? && fresh(r.value)
                && BuiltFrom(r.value, CheckConfig(configs, name).value)
                && instances == old(instances)[name := r.value]
    {
      if name in instances {
        return Success(instances[name]);
      }
      var config := Lookup(configs, name);
      if config.None? {
        return Failure(ModelNotFound(name, Names(configs)));
      }
      if config.value.apiKey.None? || config.value.apiKey.value == "" {
        return Failure(MissingApiKey(name));
      }
      var c := config.value;
      var instance := new ModelClient(c.clientClass, c.apiKey.value, c.baseUrl, c.defaultModel);
      instances := instances[name := instance];
      return Success(instance);
    }

    /** `list_available_models`: the configuration keys in order. */
    function ListAvailableModels(): (names: seq<string>)
      ensures |names| == |configs|
      ensures forall i :: 0 <= i < |configs| ==> names[i] == configs[i].0
      ensures forall name :: name in names <==> Lookup(configs, name).Some?
    {
      Names(configs)
    }
  }

  /** Two successive lookups of the same name: once the first succeeds, the
      second returns the very same instance and adds nothing to the cache. */
  method GetModelTwice(registry: ModelRegistry, name: string)
    returns (first: Result<ModelClient, RegistryError>, second: Result<ModelClient, RegistryError>)
    requires registry.Valid()
    modifies registry
    ensures registry.Valid()
    ensures first.Success? ==> second == first
    ensures first.Success? ==> registry.instances == old(registry.instances)[name := first.value]
  {
    first := registry.GetModel(name);
    second := registry.GetModel(name);
  }

  /** The cache only ever holds configured names. */
  lemma CacheKeysConfigured(registry: ModelRegistry)
    requires registry.Valid()
    ensures registry.instances.Keys <= set name | name in Names(registry.configs)
  {
  }
}
