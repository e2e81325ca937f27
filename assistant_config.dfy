/** Configuration selection and the initialisation guard of the assistant
    (src/config/assistant_config.py). The file system is an input: the kind of
    the configured path, a directory's listing and the parsed content of each
    file. The language model, the prompt and the document chain are opaque
    tokens. */
module AssistantConfig {
  import opened Wrappers
  import opened Strings
  import opened Sequences

  /** `ASSISTANT_CONFIG_PATH`. */
  const AssistantConfigPath: string := "src/config/ieee_assistant.yaml"

  /** A parsed YAML value. Numbers, booleans and lists are not told apart. */
  datatype Yaml = Null | Text(text: string) | Mapping(fields: map<string, Yaml>) | OtherValue

  /** One parsed configuration file: a YAML mapping at top level. */
  type Config = map<string, Yaml>

  /** `d.get(key)`: a missing key gives `None`. */
  function Get(d: map<string, Yaml>, key: string): Yaml
  {
    if key in d then d[key] else Null
  }

  /** What `os.path.isdir` and `os.path.isfile` report for a path, with the
      entries `os.listdir` returns for a directory. */
  datatype PathKind = Directory(listing: seq<string>) | RegularFile | Missing

  /** The exceptions the core raises. `AttributeError` is `None.get(...)`;
      `TypeError` is a substring test on a value that is not a string. */
  datatype AssistantError = ValueError(message: string) | AttributeError | TypeError

  /** `filename.endswith('.yaml')`. */
  predicate IsYamlName(name: string)
  {
    EndsWith(name, ".yaml")
  }

  /** `os.path.join(directory, name)` on POSIX. */
  function PathJoin(directory: string, name: string): (r: string)
    ensures EndsWith(r, name)
  {
    if |name| > 0 && name[0] == '/' then name
    else if directory == [] || EndsWith(directory, "/") then directory + name
    else directory + "/" + name
  }

  // ---------------------------------------------------------------------------
  // get_configs
  // ---------------------------------------------------------------------------

  /** The listed names that count as configuration files, in listing order. */
  function YamlNames(listing: seq<string>): (r: seq<string>)
  {
    Filter(listing, IsYamlName)
  }

  /** The parsed content of each named file of `directory`, in order. */
  function ReadAll(directory: string, names: seq<string>, read: string -> Config): (r: seq<Config>)
    ensures |r| == |names|
  {
    if names == [] then []
    else ReadAll(directory, names[..|names| - 1], read) + [read(PathJoin(directory, names[|names| - 1]))]
  }

  lemma {:induction false} ReadAllAt(directory: string, names: seq<string>, read: string -> Config, i: nat)
    requires i < |names|
    ensures ReadAll(directory, names, read)[i] == read(PathJoin(directory, names[i]))
    decreases |names|
  {
    if i < |names| - 1 {
      ReadAllAt(directory, names[..|names| - 1], read, i);
    }
  }

  /** What get_configs returns or raises for `configPath`. */
  function Configs(configPath: string, kind: PathKind, read: string -> Config): Result<seq<Config>, AssistantError>
  {
    if kind.Directory? then Ok(ReadAll(configPath, YamlNames(kind.listing), read))
    else if kind.RegularFile? && IsYamlName(configPath) then Ok([read(configPath)])
    else Err(ValueError("Invalid config path: " + configPath))
  }

  /** get_configs: the configurations found at `configPath`, reading each YAML
      file of a directory in listing order, or the one YAML file named. */
  method GetConfigs(configPath: string, kind: PathKind, read: string -> Config)
    returns (r: Result<seq<Config>, AssistantError>)
    ensures r == Configs(configPath, kind, read)
  {
    var configs: seq<Config> := [];
    if kind.Directory? {
      var listing := kind.listing;
      var i := 0;
      while i < |listing|
        invariant 0 <= i <= |listing|
        invariant configs == ReadAll(configPath, YamlNames(listing[..i]), read)
      {
        var filename := listing[i];
        ReadAllStep(configPath, listing, read, i);
        if EndsWith(filename, ".yaml") {
          var filepath := PathJoin(configPath, filename);
          configs := configs + [read(filepath)];
        }
        i := i + 1;
      }
      assert listing[..i] == listing;
      assert configs == ReadAll(configPath, YamlNames(kind.listing), read);
    } else if kind.RegularFile? && EndsWith(configPath, ".yaml") {
      configs := configs + [read(configPath)];
      assert configs == [read(configPath)];
    } else {
      return Err(ValueError("Invalid config path: " + configPath));
    }
    r := Ok(configs);
  }

  /** One more entry of the listing adds its file's content exactly when its name ends in `.yaml`. */
  lemma ReadAllStep(directory: string, listing: seq<string>, read: string -> Config, i: nat)
    requires i < |listing|
    ensures ReadAll(directory, YamlNames(listing[..i + 1]), read) ==
      ReadAll(directory, YamlNames(listing[..i]), read) + (if IsYamlName(listing[i]) then [read(PathJoin(directory, listing[i]))] else [])
  {
    var front, names := listing[..i], YamlNames(listing[..i]);
    assert listing[..i + 1][..i] == front;
    if IsYamlName(listing[i]) {
      assert YamlNames(listing[..i + 1]) == names + [listing[i]];
      assert (names + [listing[i]])[..|names|] == names;
    } else {
      assert YamlNames(listing[..i + 1]) == names;
    }
  }

  /** A directory gives one configuration per listed name ending in `.yaml`,
      in listing order, each read from the file of that name in the directory;
      the other entries are skipped. */
  lemma DirectoryConfigs(configPath: string, listing: seq<string>, read: string -> Config)
    ensures var names := YamlNames(listing);
      && Configs(configPath, Directory(listing), read).Ok?
      && IsSubsequence(names, listing)
      && (forall name :: name in names <==> name in listing && IsYamlName(name))
      && (forall name :: multiset(names)[name] == if IsYamlName(name) then multiset(listing)[name] else 0)
      && |Configs(configPath, Directory(listing), read).value| == |names|
      && (forall i :: 0 <= i < |names| ==>
            Configs(configPath, Directory(listing), read).value[i] == read(PathJoin(configPath, names[i]))
            && IsYamlName(PathJoin(configPath, names[i])))
  {
    var names := YamlNames(listing);
    FilterIsSubsequence(listing, IsYamlName);
    FilterMembers(listing, IsYamlName);
    FilterMultiset(listing, IsYamlName);
    forall i | 0 <= i < |names|
      ensures ReadAll(configPath, names, read)[i] == read(PathJoin(configPath, names[i]))
      ensures IsYamlName(PathJoin(configPath, names[i]))
    {
      ReadAllAt(configPath, names, read, i);
      assert names[i] in names;
      EndsWithTransitive(PathJoin(configPath, names[i]), names[i], ".yaml");
    }
  }

  /** A suffix of a suffix is a suffix. */
  lemma EndsWithTransitive(s: string, t: string, u: string)
    requires EndsWith(s, t) && EndsWith(t, u)
    ensures EndsWith(s, u)
  {
    assert s[|s| - |u|..] == t[|t| - |u|..];
  }

  /** A directory without YAML entries gives no configuration (and no error). */
  lemma DirectoryWithoutYamlGivesNone(configPath: string, listing: seq<string>, read: string -> Config)
    requires forall name :: name in listing ==> !IsYamlName(name)
    ensures Configs(configPath, Directory(listing), read) == Ok([])
  {
    FilterNone(listing, IsYamlName);
  }

  /** A regular file is accepted exactly when its name ends in `.yaml`, and
      then gives exactly its own content; a missing path is always rejected. */
  lemma FileConfigs(configPath: string, kind: PathKind, read: string -> Config)
    requires !kind.Directory?
    ensures Configs(configPath, kind, read).Ok? <==> kind.RegularFile? && IsYamlName(configPath)
    ensures Configs(configPath, kind, read).Ok? ==> Configs(configPath, kind, read).value == [read(configPath)]
    ensures Configs(configPath, kind, read).Err? ==>
      Configs(configPath, kind, read).error == ValueError("Invalid config path: " + configPath)
  {
  }

  // ---------------------------------------------------------------------------
  // get_assistant_config and get_llm_model
  // ---------------------------------------------------------------------------

  /** get_assistant_config: the `config` entry of the first configuration;
      `None` when there is no configuration or the first one has no such entry. */
  function AssistantConfigOf(configs: seq<Config>): (r: Yaml)
    ensures r != Null ==> configs != [] && "config" in configs[0] && r == configs[0]["config"]
    ensures configs != [] && "config" in configs[0] ==> r == configs[0]["config"]
  {
    if configs == [] then Null else Get(configs[0], "config")
  }

  /** Only the first configuration is ever consulted. */
  lemma AssistantConfigIgnoresTheRest(first: Config, rest1: seq<Config>, rest2: seq<Config>)
    ensures AssistantConfigOf([first] + rest1) == AssistantConfigOf([first] + rest2)
  {
    assert ([first] + rest1)[0] == first == ([first] + rest2)[0];
  }

  /** `LlmConfig`: the system prompt and the model name as read from the
      assistant configuration (the temperature is not modelled). */
  datatype LlmConfig = LlmConfig(sysPrompt: Yaml, model: Yaml)

  /** The chat model client, seen through the model name it is built with. */
  datatype Llm = ChatGoogleGenerativeAI(model: string)

  /** The message `get_llm_model` raises for an unsupported model name. */
  function UnsupportedModelMessage(model: string): string
  {
    "Invalid LLM model: " + model + ", or not supported"
  }

  /** get_llm_model: a Gemini client when the model name contains `gemini`;
      `ValueError` for any other name; `TypeError` when the model is not a
      string (`'gemini' in None`). */
  function GetLlmModel(config: LlmConfig): (r: Result<Llm, AssistantError>)
    ensures r.Ok? ==> config.model.Text? && r.value.model == config.model.text
    ensures !config.model.Text? ==> r == Err(TypeError)
  {
    if !config.model.Text? then Err(TypeError)
    else if Contains(config.model.text, "gemini") then Ok(ChatGoogleGenerativeAI(config.model.text))
    else Err(ValueError(UnsupportedModelMessage(config.model.text)))
  }

  /** A model name is accepted exactly when `gemini` occurs in it somewhere;
      otherwise the error names the model. */
  lemma GetLlmModelAcceptsExactlyGemini(sysPrompt: Yaml, name: string)
    ensures var r := GetLlmModel(LlmConfig(sysPrompt, Text(name)));
      && (r.Ok? <==> exists i :: OccursAt(name, "gemini", i))
      && (r.Err? ==> r.error == ValueError(UnsupportedModelMessage(name)))
  {
    ContainsIffOccurs(name, "gemini");
  }

  /** A Gemini model name is accepted and another vendor's model name is rejected. */
  lemma GetLlmModelExamples(sysPrompt: Yaml)
    ensures GetLlmModel(LlmConfig(sysPrompt, Text("gemini-1.5-flash"))) == Ok(ChatGoogleGenerativeAI("gemini-1.5-flash"))
    ensures GetLlmModel(LlmConfig(sysPrompt, Text("gpt-4o"))) == Err(ValueError(UnsupportedModelMessage("gpt-4o")))
  {
    assert "gemini-1.5-flash"[..6] == "gemini";
    ContainsIffOccurs("gpt-4o", "gemini");
    assert "gpt-4o"[0..6][1] != "gemini"[1];
  }

  // ---------------------------------------------------------------------------
  // The assistant object and its initialisation guard
  // ---------------------------------------------------------------------------

  /** The document chain `create_stuff_documents_chain` builds from the model
      and the system prompt. */
  datatype Chain = StuffDocumentsChain(llm: Llm, sysPrompt: Yaml)

  /** What `assistant.stream(...)` returns, seen through the chain and the input it is given. */
  datatype Response = Stream(chain: Chain, input: string)

  /** IeeeAssistant. The attributes `_llm` and `assistant` exist only once
      get_assistant has set them: `None` stands for a missing attribute. */
  class IeeeAssistant {
    const configs: seq<Config>
    const assistantConfig: map<string, Yaml>
    const llmConfig: LlmConfig
    var llm: Option<Llm>
    var assistant: Option<Chain>

    /** The object state right after `__init__`: nothing built yet. */
    constructor (configs: seq<Config>, assistantConfig: map<string, Yaml>)
      ensures this.configs == configs && this.assistantConfig == assistantConfig
      ensures llmConfig == LlmConfig(Get(assistantConfig, "system_message"), Get(assistantConfig, "model"))
      ensures llm == None && assistant == None
      ensures Valid()
    {
      this.configs := configs;
      this.assistantConfig := assistantConfig;
      llmConfig := LlmConfig(Get(assistantConfig, "system_message"), Get(assistantConfig, "model"));
      llm := None;
      assistant := None;
    }

    /** Both attributes exist. */
    predicate Built()
      reads this
    {
      assistant.Some? && llm.Some?
    }

    /** `assistant` is only ever set after `_llm`. */
    predicate Valid()
      reads this
    {
      assistant.Some? ==> llm.Some?
    }

    /** get_assistant: builds the model and the chain unless both already
        exist. On an unsupported model nothing is set. `_llm` is set before
        the prompts are built, so when building them raises
        (`buildError(sys_prompt)`, for instance a missing `system_message`),
        `_llm` stays set and `assistant` stays missing. */
    method GetAssistant(buildError: Yaml -> Option<AssistantError>) returns (r: Outcome<AssistantError>)
      requires Valid()
      modifies this
      ensures Valid()
      ensures old(Built()) ==> r == Pass && unchanged(this)
      ensures !old(Built()) && GetLlmModel(llmConfig).Err? ==> r == Fail(GetLlmModel(llmConfig).error) && unchanged(this)
      ensures !old(Built()) && GetLlmModel(llmConfig).Ok? && buildError(llmConfig.sysPrompt).Some? ==>
        && r == Fail(buildError(llmConfig.sysPrompt).value)
        && llm == Some(GetLlmModel(llmConfig).value)
        && assistant == None
      ensures !old(Built()) && GetLlmModel(llmConfig).Ok? && buildError(llmConfig.sysPrompt).None? ==>
        && r == Pass
        && llm == Some(GetLlmModel(llmConfig).value)
        && assistant == Some(StuffDocumentsChain(GetLlmModel(llmConfig).value, llmConfig.sysPrompt))
      ensures r == Pass <==> Built()
    {
      if assistant.None? || llm.None? {
        var model := GetLlmModel(llmConfig);
        if model.Err? {
          return Fail(model.error);
        }
        llm := Some(model.value);
        var error := buildError(llmConfig.sysPrompt);
        if error.Some? {
          return Fail(error.value);
        }
        assistant := Some(StuffDocumentsChain(model.value, llmConfig.sysPrompt));
      }
      r := Pass;
    }

    /** run_assistant: streams the input through the chain; raises when the
        `assistant` attribute is missing (the `_llm` attribute is not checked).
        Retrieval of the context documents is not modelled. */
    method RunAssistant(inputs: string) returns (r: Result<Response, AssistantError>)
      ensures r.Err? <==> assistant.None?
      ensures r.Err? ==> r.error == ValueError("Assistant not initialized")
      ensures r.Ok? ==> r.value == Stream(assistant.value, inputs)
    {
      if assistant.None? {
        return Err(ValueError("Assistant not initialized"));
      }
      r := Ok(Stream(assistant.value, inputs));
    }
  }

  /** `IeeeAssistant()`: reads the configurations at `ASSISTANT_CONFIG_PATH`
      and the assistant configuration of the first one; fails with the
      error of get_configs, or with `AttributeError` when that entry is not a
      mapping (`None.get(...)`). */
  method NewAssistant(kind: PathKind, read: string -> Config) returns (r: Result<IeeeAssistant, AssistantError>)
    ensures Configs(AssistantConfigPath, kind, read).Err? ==>
      r == Err(Configs(AssistantConfigPath, kind, read).error)
    ensures Configs(AssistantConfigPath, kind, read).Ok? ==>
      var assistantConfig := AssistantConfigOf(Configs(AssistantConfigPath, kind, read).value);
      && (r.Err? <==> !assistantConfig.Mapping?)
      && (r.Err? ==> r.error == AttributeError)
      && (r.Ok? ==>
            && r.value.configs == Configs(AssistantConfigPath, kind, read).value
            && r.value.assistantConfig == assistantConfig.fields
            && r.value.llmConfig == LlmConfig(Get(assistantConfig.fields, "system_message"), Get(assistantConfig.fields, "model"))
            && r.value.llm == None && r.value.assistant == None)
    ensures r.Ok? ==> fresh(r.value) && r.value.Valid()
  {
    var configs := GetConfigs(AssistantConfigPath, kind, read);
    if configs.Err? {
      return Err(configs.error);
    }
    var assistantConfig := AssistantConfigOf(configs.value);
    if !assistantConfig.Mapping? {
      return Err(AttributeError);
    }
    var assistant := new IeeeAssistant(configs.value, assistantConfig.fields);
    r := Ok(assistant);
  }

  /** A model that is accepted with prompts that cannot be built leaves the
      assistant half built: `_llm` exists, `assistant` does not, and running
      it raises. Asking again retries the whole construction. */
  method HalfBuiltAssistant(a: IeeeAssistant, buildError: Yaml -> Option<AssistantError>, inputs: string)
      returns (built: Outcome<AssistantError>, ran: Result<Response, AssistantError>)
    requires a.Valid() && a.llm == None && a.assistant == None
    requires GetLlmModel(a.llmConfig).Ok? && buildError(a.llmConfig.sysPrompt).Some?
    modifies a
    ensures built == Fail(buildError(a.llmConfig.sysPrompt).value)
    ensures a.llm.Some? && a.assistant == None && !a.Built()
    ensures ran == Err(ValueError("Assistant not initialized"))
  {
    built := a.GetAssistant(buildError);
    ran := a.RunAssistant(inputs);
  }
}
