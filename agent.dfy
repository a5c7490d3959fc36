/** The Semantic Kernel agent wrapper: its configuration read from the
    environment, tools with their kernel function metadata, and the agent
    object that keeps a tool registry and a chat history. The planner, the
    chat service and the environment are parameters. */
module SemanticAgent {
  import opened Wrappers
  import opened Values
  import opened Lookup

  // ----- AgentConfig

  /** temperature is a Python float; the model keeps it as a real. */
  datatype AgentConfig = AgentConfig(
    endpoint: Option<string>, apiKey: Option<string>, deploymentName: Option<string>,
    apiVersion: string, maxTokens: int, temperature: real, plannerType: string, verbose: bool)

  /** os.getenv(key), with no default. */
  function EnvLookup(env: map<string, string>, key: string): Option<string>
  {
    if key in env then Some(env[key]) else None
  }

  /** The ValueError of int() or float() on a malformed number. */
  datatype ConfigError = InvalidInt(text: string) | InvalidFloat(text: string)

  /** from_env. int() runs before float(), as the keyword arguments are
      evaluated in order. */
  function FromEnv(env: map<string, string>, parseInt: string -> Option<int>, parseFloat: string -> Option<real>): (r: Result<AgentConfig, ConfigError>)
    ensures parseInt(GetOr(env, "MAX_TOKENS", "2000")).None? ==> r == Err(InvalidInt(GetOr(env, "MAX_TOKENS", "2000")))
    ensures parseInt(GetOr(env, "MAX_TOKENS", "2000")).Some? && parseFloat(GetOr(env, "TEMPERATURE", "0.7")).None? ==>
      r == Err(InvalidFloat(GetOr(env, "TEMPERATURE", "0.7")))
    ensures parseInt(GetOr(env, "MAX_TOKENS", "2000")).Some? && parseFloat(GetOr(env, "TEMPERATURE", "0.7")).Some? ==> r.Ok?
    ensures r.Ok? ==>
      && r.value.endpoint == EnvLookup(env, "AZURE_OPENAI_ENDPOINT")
      && r.value.apiKey == EnvLookup(env, "AZURE_OPENAI_API_KEY")
      && r.value.deploymentName == EnvLookup(env, "AZURE_OPENAI_DEPLOYMENT_NAME")
      && r.value.maxTokens == parseInt(GetOr(env, "MAX_TOKENS", "2000")).value
      && r.value.temperature == parseFloat(GetOr(env, "TEMPERATURE", "0.7")).value
      && r.value.apiVersion == GetOr(env, "AZURE_OPENAI_API_VERSION", "2024-12-01-preview")
      && r.value.plannerType == GetOr(env, "PLANNER_TYPE", "sequential")
      && (r.value.verbose <==> Lower(GetOr(env, "VERBOSE", "False")) == "true")
  {
    var maxTokens := parseInt(GetOr(env, "MAX_TOKENS", "2000"));
    var temperature := parseFloat(GetOr(env, "TEMPERATURE", "0.7"));
    if maxTokens.None? then Err(InvalidInt(GetOr(env, "MAX_TOKENS", "2000")))
    else if temperature.None? then Err(InvalidFloat(GetOr(env, "TEMPERATURE", "0.7")))
    else Ok(AgentConfig(
      EnvLookup(env, "AZURE_OPENAI_ENDPOINT"), EnvLookup(env, "AZURE_OPENAI_API_KEY"), EnvLookup(env, "AZURE_OPENAI_DEPLOYMENT_NAME"),
      GetOr(env, "AZURE_OPENAI_API_VERSION", "2024-12-01-preview"),
      maxTokens.value, temperature.value,
      GetOr(env, "PLANNER_TYPE", "sequential"),
      Lower(GetOr(env, "VERBOSE", "False")) == "true"))
  }

  /** verbose is off unless VERBOSE is set to "true" in some mix of cases:
      in particular it is off when VERBOSE is unset. */
  lemma VerboseOnlyForTrue(env: map<string, string>, parseInt: string -> Option<int>, parseFloat: string -> Option<real>)
    requires parseInt(GetOr(env, "MAX_TOKENS", "2000")).Some? && parseFloat(GetOr(env, "TEMPERATURE", "0.7")).Some?
    ensures FromEnv(env, parseInt, parseFloat).Ok?
    ensures "VERBOSE" !in env ==> !FromEnv(env, parseInt, parseFloat).value.verbose
    ensures FromEnv(env, parseInt, parseFloat).value.verbose <==>
      "VERBOSE" in env && |env["VERBOSE"]| == 4 && forall k :: 0 <= k < 4 ==> LowerChar(env["VERBOSE"][k]) == "true"[k]
  {
    var v := GetOr(env, "VERBOSE", "False");
    if "VERBOSE" !in env {
      assert Lower(v)[0] == 'f';
    } else if |v| == 4 && forall k :: 0 <= k < 4 ==> LowerChar(v[k]) == "true"[k] {
      assert Lower(v) == "true";
    }
  }

  // ----- AgentTool

  /** A parameter description: a dict of optional "description", "default"
      and "type" entries. Parameters keep the order of their dict. */
  type ParamInfo = map<string, Value>

  datatype AgentTool = AgentTool(
    name: string, description: string, callable: nat,
    parameters: seq<(string, ParamInfo)>, pluginName: string, isAsync: bool)

  /** AgentTool.__init__: `parameters or {}` and `plugin_name or f"{name}_plugin"`. */
  function NewAgentTool(name: string, description: string, callable: nat,
                        parameters: Option<seq<(string, ParamInfo)>>, pluginName: Option<string>,
                        isAsync: bool): (t: AgentTool)
    ensures t.name == name && t.description == description && t.callable == callable && t.isAsync == isAsync
    ensures parameters.None? ==> t.parameters == []
    ensures parameters.Some? ==> t.parameters == parameters.value
    ensures pluginName.None? || pluginName == Some("") ==> t.pluginName == name + "_plugin"
    ensures pluginName.Some? && pluginName.value != "" ==> t.pluginName == pluginName.value
  {
    AgentTool(name, description, callable,
              if parameters.Some? then parameters.value else [],
              if pluginName.Some? && pluginName.value != "" then pluginName.value else name + "_plugin",
              isAsync)
  }

  datatype FunctionParam = FunctionParam(name: string, description: Value, defaultValue: Value, paramType: Value)

  datatype KernelFunctionMetadata = KernelFunctionMetadata(
    name: string, description: string, parameters: seq<FunctionParam>, isSemantic: bool, pluginName: string)

  /** One entry of function_params: a missing description, default or type
      becomes "", None or "string". */
  function ParamFrom(name: string, info: ParamInfo): (p: FunctionParam)
    ensures p.name == name
    ensures p.description == if "description" in info then info["description"] else Str("")
    ensures p.defaultValue == if "default" in info then info["default"] else Null
    ensures p.paramType == if "type" in info then info["type"] else Str("string")
  {
    FunctionParam(name, GetOr(info, "description", Str("")), GetOr(info, "default", Null), GetOr(info, "type", Str("string")))
  }

  function MetadataOf(tool: AgentTool): KernelFunctionMetadata
  {
    KernelFunctionMetadata(
      tool.name, tool.description,
      seq(|tool.parameters|, k requires 0 <= k < |tool.parameters| => ParamFrom(tool.parameters[k].0, tool.parameters[k].1)),
      false, tool.pluginName)
  }

  /** The metadata names the tool and its plugin, is not semantic, and has one
      parameter entry per parameter, in order, named after it. */
  lemma MetadataDescribesTool(tool: AgentTool)
    ensures var m := MetadataOf(tool);
      && m.name == tool.name && m.description == tool.description && m.pluginName == tool.pluginName && !m.isSemantic
      && |m.parameters| == |tool.parameters|
      && (forall k :: 0 <= k < |tool.parameters| ==> m.parameters[k].name == tool.parameters[k].0)
      && forall k :: 0 <= k < |tool.parameters| ==> m.parameters[k] == ParamFrom(tool.parameters[k].0, tool.parameters[k].1)
  {
  }

  /** to_kernel_function_metadata. */
  method ToKernelFunctionMetadata(tool: AgentTool) returns (m: KernelFunctionMetadata)
    ensures m == MetadataOf(tool)
  {
    var functionParams: seq<FunctionParam> := [];
    for k := 0 to |tool.parameters|
      invariant |functionParams| == k
      invariant forall j :: 0 <= j < k ==> functionParams[j] == ParamFrom(tool.parameters[j].0, tool.parameters[j].1)
    {
      var (paramName, paramInfo) := tool.parameters[k];
      functionParams := functionParams + [FunctionParam(
        paramName,
        GetOr(paramInfo, "description", Str("")),
        GetOr(paramInfo, "default", Null),
        GetOr(paramInfo, "type", Str("string")))];
    }
    m := KernelFunctionMetadata(tool.name, tool.description, functionParams, false, tool.pluginName);
  }

  /** __str__: "Tool: {name} - {description}". */
  function ToolString(tool: AgentTool): (s: string)
    ensures |s| == 9 + |tool.name| + |tool.description|
    ensures s[..6] == "Tool: " && s[6 .. 6 + |tool.name|] == tool.name
    ensures s[6 + |tool.name| .. 9 + |tool.name|] == " - " && s[9 + |tool.name|..] == tool.description
  {
    "Tool: " + tool.name + " - " + tool.description
  }

  /** The weather tool of the usage example: the missing default of
      "location" becomes None, both types are given, and the plugin is named
      after the tool. */
  lemma WeatherToolMetadata(callable: nat)
    ensures var tool := NewAgentTool("get_weather", "Get the current weather for a specified location", callable,
              Some([("location", map["type" := Str("string"), "description" := Str("The city and state or country")]),
                    ("unit", map["type" := Str("string"),
                                 "description" := Str("The unit of temperature: 'celsius' or 'fahrenheit'"),
                                 "default" := Str("celsius")])]),
              None, false);
      && tool.pluginName == "get_weather_plugin"
      && MetadataOf(tool).parameters == [
           FunctionParam("location", Str("The city and state or country"), Null, Str("string")),
           FunctionParam("unit", Str("The unit of temperature: 'celsius' or 'fahrenheit'"), Str("celsius"), Str("string"))]
  {
  }

  // ----- the planner

  datatype Planner = SequentialPlanner

  /** _add_planner: a SequentialPlanner whatever the type; the second
      component says whether the fallback warning is logged. */
  function AddPlanner(plannerType: string): (r: (Planner, bool))
    ensures r.0 == SequentialPlanner
    ensures r.1 <==> Lower(plannerType) != "sequential"
  {
    if Lower(plannerType) == "sequential" then (SequentialPlanner, false)
    else (SequentialPlanner, true)
  }

  // ----- the chat history

  datatype HistoryEntry = HistoryEntry(role: string, content: string)

  datatype ChatMessage = ChatMessage(role: string, content: string)

  function ToChat(e: HistoryEntry): ChatMessage
  {
    ChatMessage(if e.role == "user" then "user" else "assistant", e.content)
  }

  /** The fallback path's messages: chat_history[-10:], every role but
      "user" sent as "assistant". */
  function Window(history: seq<HistoryEntry>): seq<ChatMessage>
  {
    var start := if |history| > 10 then |history| - 10 else 0;
    seq(|history| - start, k requires 0 <= k < |history| - start => ToChat(history[start + k]))
  }

  /** At most the last 10 entries, in order, ending with the newest; roles are
      only "user" and "assistant", and a message is "user" exactly when its
      entry's role is. */
  lemma WindowIsLastTen(history: seq<HistoryEntry>)
    ensures var w := Window(history);
      && |w| == (if |history| > 10 then 10 else |history|)
      && (forall k :: 0 <= k < |w| ==>
            && w[k].content == history[|history| - |w| + k].content
            && (w[k].role == "user" <==> history[|history| - |w| + k].role == "user")
            && (w[k].role == "user" || w[k].role == "assistant"))
      && (history != [] ==> w[|w| - 1] == ToChat(history[|history| - 1]))
  {
    var w := Window(history);
    forall k | 0 <= k < |w| ensures w[k] == ToChat(history[|history| - |w| + k]) {
    }
  }

  /** Once ten entries are kept, each new entry pushes the oldest out. */
  lemma WindowSlides(history: seq<HistoryEntry>, e: HistoryEntry)
    ensures |history| >= 10 ==> Window(history + [e]) == Window(history)[1..] + [ToChat(e)]
    ensures |history| < 10 ==> Window(history + [e]) == Window(history) + [ToChat(e)]
  {
    var h := history + [e];
    var w := Window(history);
    var v := Window(h);
    if |history| >= 10 {
      assert |v| == 10;
      forall k | 0 <= k < 10 ensures v[k] == (w[1..] + [ToChat(e)])[k] {
        if k < 9 {
          assert h[|h| - 10 + k] == history[|history| - 10 + k + 1];
        }
      }
    } else {
      forall k | 0 <= k < |v| ensures v[k] == (w + [ToChat(e)])[k] {
        if k < |history| {
          assert h[k] == history[k];
        }
      }
    }
  }

  /** Which service ask consults: the planner with the query as goal, or the
      chat service with the history window. */
  datatype AskRequest = PlanRequest(goal: string) | ChatRequest(messages: seq<ChatMessage>)

  class SemanticKernelAgent {
    const config: AgentConfig
    var planner: Option<Planner>
    var tools: map<string, AgentTool>
    var chatHistory: seq<HistoryEntry>
    /** The kernel.add_plugin calls that succeeded so far, in call order:
        plugin name and function metadata. This is the call log, not the
        kernel's plugin table, which keeps one plugin per name (a later
        plugin of the same name replaces the earlier one). */
    var kernelPlugins: seq<(string, KernelFunctionMetadata)>

    /** __init__, with _initialize_kernel's _add_planner: the planner is set
        to a SequentialPlanner for every planner type. */
    constructor (config: AgentConfig)
      ensures this.config == config
      ensures planner == Some(SequentialPlanner)
      ensures tools == map[] && chatHistory == [] && kernelPlugins == []
    {
      this.config := config;
      var (p, _) := AddPlanner(config.plannerType);
      planner := Some(p);
      tools := map[];
      chatHistory := [];
      kernelPlugins := [];
    }

    /** add_tool: the tool is stored under its name, replacing any earlier
        tool of that name, and then its function is registered with the
        kernel under the tool's plugin name. `register` stands for
        KernelFunction.from_native_method and kernel.add_plugin: false is an
        exception from either, which add_tool propagates after the tool has
        already been stored; `registered` is false exactly then. */
    method AddTool(tool: AgentTool, register: (string, KernelFunctionMetadata) -> bool) returns (registered: bool)
      modifies this
      ensures tools == old(tools)[tool.name := tool]
      ensures registered == register(tool.pluginName, MetadataOf(tool))
      ensures registered ==> kernelPlugins == old(kernelPlugins) + [(tool.pluginName, MetadataOf(tool))]
      ensures !registered ==> kernelPlugins == old(kernelPlugins)
      ensures chatHistory == old(chatHistory) && planner == old(planner)
    {
      tools := tools[tool.name := tool];
      var functionMetadata := ToKernelFunctionMetadata(tool);
      registered := register(tool.pluginName, functionMetadata);
      if registered {
        kernelPlugins := kernelPlugins + [(tool.pluginName, functionMetadata)];
      }
    }

    /** ask: the query is recorded first; with a planner and at least one
        tool the planner answers, otherwise the chat service gets the window
        of the history. Only an answer is recorded, so a raised error leaves
        the query as the last entry. */
    method Ask(query: string, plan: string -> Result<string, string>,
               complete: seq<ChatMessage> -> Result<string, string>)
      returns (response: Result<string, string>, request: AskRequest)
      modifies this
      ensures request == if planner.Some? && tools != map[] then PlanRequest(query)
                         else ChatRequest(Window(old(chatHistory) + [HistoryEntry("user", query)]))
      ensures response == match request
                          case PlanRequest(goal) => plan(goal)
                          case ChatRequest(messages) => complete(messages)
      ensures chatHistory == old(chatHistory) + [HistoryEntry("user", query)]
                             + (if response.Ok? then [HistoryEntry("assistant", response.value)] else [])
      ensures tools == old(tools) && planner == old(planner) && kernelPlugins == old(kernelPlugins)
    {
      chatHistory := chatHistory + [HistoryEntry("user", query)];
      if planner.Some? && tools != map[] {
        request := PlanRequest(query);
        response := plan(query);
      } else {
        var start := if |chatHistory| > 10 then |chatHistory| - 10 else 0;
        var messages: seq<ChatMessage> := [];
        ghost var window := Window(chatHistory);
        for k := start to |chatHistory|
          invariant messages == window[..k - start]
        {
          assert window[k - start] == ToChat(chatHistory[k]);
          assert window[..k + 1 - start] == window[..k - start] + [window[k - start]];
          var msg := chatHistory[k];
          messages := messages + [ChatMessage(if msg.role == "user" then "user" else "assistant", msg.content)];
        }
        assert messages == window;
        request := ChatRequest(messages);
        response := complete(messages);
      }
      if response.Ok? {
        chatHistory := chatHistory + [HistoryEntry("assistant", response.value)];
      }
    }
  }

  /** A fresh agent always has a planner, so it takes the chat path only
      while it has no tool: the first question goes to the chat service alone,
      and after a tool is added the next one goes to the planner. */
  method FirstQuestions(config: AgentConfig, tool: AgentTool, first: string, second: string,
                        plan: string -> Result<string, string>, complete: seq<ChatMessage> -> Result<string, string>,
                        register: (string, KernelFunctionMetadata) -> bool)
    returns (firstRequest: AskRequest, secondRequest: AskRequest)
    ensures firstRequest == ChatRequest([ChatMessage("user", first)])
    ensures secondRequest == PlanRequest(second)
  {
    var agent := new SemanticKernelAgent(config);
    var _, r1 := agent.Ask(first, plan, complete);
    assert Window([HistoryEntry("user", first)])[0] == ToChat(HistoryEntry("user", first));
    firstRequest := r1;
    var _ := agent.AddTool(tool, register);
    assert tool.name in agent.tools;
    var _, r2 := agent.Ask(second, plan, complete);
    secondRequest := r2;
  }
}
