/** The tool-using agent: it asks the model once with the tool schemas;
    a text answer is returned as it is, a list of function calls is
    executed (each call by the first tool of that name) and the model is
    asked a second time with the calls and their results appended. The
    model client, json.loads and tool execution are parameters. */
module ToolUse {
  import opened Wrappers
  import opened Values
  import opened Lookup

  datatype FunctionCall = FunctionCall(id: string, name: string, arguments: string)

  datatype Tool = Tool(name: string, description: string)

  datatype FunctionExecutionResult = FunctionExecutionResult(callId: string, content: string, isError: bool, name: string)

  datatype LLMMessage =
    | SystemMessage(content: string)
    | UserMessage(content: string, source: string)
    | AssistantMessage(calls: seq<FunctionCall>, source: string)
    | FunctionExecutionResultMessage(results: seq<FunctionExecutionResult>)

  /** What one create() call answers: text, or the function calls the model asks for. */
  datatype CreateContent = Text(text: string) | Calls(calls: seq<FunctionCall>)

  /** One create() call: the messages sent and the tool schemas offered. */
  datatype CreateRequest = CreateRequest(messages: seq<LLMMessage>, tools: seq<Tool>)

  /** The assertion that fails, outside the try block, when no tool has the
      called name. */
  datatype ToolError = ToolNotFound(name: string)

  const SystemPrompt: string := "You are a tool assistant"

  /** The test next() applies to each tool. */
  function NameIs(name: string): Tool -> bool
  {
    (tool: Tool) => tool.name == name
  }

  /** _execute_tool_call. `parse` is json.loads and `run` runs the tool and
      renders its value as a string; each answers Err with str(e) when it
      raises. */
  function ExecuteToolCall(tools: seq<Tool>, call: FunctionCall,
                           parse: string -> Result<Value, string>,
                           run: (Tool, Value) -> Result<string, string>): Result<FunctionExecutionResult, ToolError>
  {
    match FirstWhere(tools, NameIs(call.name))
    case None => Err(ToolNotFound(call.name))
    case Some(k) =>
      var tool := tools[k];
      match parse(call.arguments)
      case Err(e) => Ok(FunctionExecutionResult(call.id, e, true, tool.name))
      case Ok(arguments) =>
        match run(tool, arguments)
        case Ok(result) => Ok(FunctionExecutionResult(call.id, result, false, tool.name))
        case Err(e) => Ok(FunctionExecutionResult(call.id, e, true, tool.name))
  }

  /** A missing tool is the only call that gives no result. A result keeps
      the call's id and names the tool; it is an error exactly when parsing
      the arguments or running the tool raised, and then carries str(e). */
  lemma ExecuteToolCallResult(tools: seq<Tool>, call: FunctionCall,
                              parse: string -> Result<Value, string>,
                              run: (Tool, Value) -> Result<string, string>)
    ensures var r := ExecuteToolCall(tools, call, parse, run);
      && (r.Err? <==> FirstWhere(tools, NameIs(call.name)).None?)
      && (r.Err? ==> r.error == ToolNotFound(call.name))
      && (r.Ok? ==>
            var tool := tools[FirstWhere(tools, NameIs(call.name)).value];
            && r.value.callId == call.id
            && r.value.name == tool.name == call.name
            && (r.value.isError <==> parse(call.arguments).Err? || run(tool, parse(call.arguments).value).Err?)
            && r.value.content == (if parse(call.arguments).Err? then parse(call.arguments).error
                                   else match run(tool, parse(call.arguments).value)
                                        case Ok(v) => v
                                        case Err(e) => e))
  {
  }

  /** asyncio.gather over the calls: the results in call order, or the error
      of the first call whose tool is missing (each call's assertion runs
      before its first await, in call order). */
  function ExecuteAll(tools: seq<Tool>, calls: seq<FunctionCall>,
                      parse: string -> Result<Value, string>,
                      run: (Tool, Value) -> Result<string, string>): (r: Result<seq<FunctionExecutionResult>, ToolError>)
    ensures r.Ok? ==>
      && |r.value| == |calls|
      && forall k :: 0 <= k < |calls| ==>
           ExecuteToolCall(tools, calls[k], parse, run) == Ok(r.value[k])
    ensures r.Err? ==>
      exists k :: 0 <= k < |calls|
        && ExecuteToolCall(tools, calls[k], parse, run) == Err(r.error)
        && forall j :: 0 <= j < k ==> ExecuteToolCall(tools, calls[j], parse, run).Ok?
  {
    if calls == [] then Ok([])
    else match ExecuteToolCall(tools, calls[0], parse, run)
         case Err(e) => Err(e)
         case Ok(first) =>
           match ExecuteAll(tools, calls[1..], parse, run)
           case Err(e) =>
             var k :| 0 <= k < |calls| - 1
               && ExecuteToolCall(tools, calls[1..][k], parse, run) == Err(e)
               && forall j :: 0 <= j < k ==> ExecuteToolCall(tools, calls[1..][j], parse, run).Ok?;
             FirstErrorShifts(tools, calls, parse, run, e, k);
             Err(e)
           case Ok(rest) => Ok([first] + rest)
  }

  lemma FirstErrorShifts(tools: seq<Tool>, calls: seq<FunctionCall>,
                         parse: string -> Result<Value, string>,
                         run: (Tool, Value) -> Result<string, string>, e: ToolError, k: nat)
    requires |calls| > 0 && ExecuteToolCall(tools, calls[0], parse, run).Ok?
    requires k < |calls| - 1 && ExecuteToolCall(tools, calls[1..][k], parse, run) == Err(e)
    requires forall j :: 0 <= j < k ==> ExecuteToolCall(tools, calls[1..][j], parse, run).Ok?
    ensures ExecuteToolCall(tools, calls[k + 1], parse, run) == Err(e)
    ensures forall j :: 0 <= j < k + 1 ==> ExecuteToolCall(tools, calls[j], parse, run).Ok?
  {
    assert calls[k + 1] == calls[1..][k];
    forall j | 0 < j < k + 1 ensures ExecuteToolCall(tools, calls[j], parse, run).Ok? {
      assert calls[j] == calls[1..][j - 1];
    }
  }

  /** The calls all succeed in finding their tool exactly when every called
      name is the name of some tool. */
  lemma ExecuteAllKeepsCallIds(tools: seq<Tool>, calls: seq<FunctionCall>,
                               parse: string -> Result<Value, string>,
                               run: (Tool, Value) -> Result<string, string>)
    requires ExecuteAll(tools, calls, parse, run).Ok?
    ensures forall k :: 0 <= k < |calls| ==> ExecuteAll(tools, calls, parse, run).value[k].callId == calls[k].id
  {
    forall k | 0 <= k < |calls| ensures ExecuteAll(tools, calls, parse, run).value[k].callId == calls[k].id {
      ExecuteToolCallResult(tools, calls[k], parse, run);
    }
  }

  lemma ExecuteAllFindsEveryTool(tools: seq<Tool>, calls: seq<FunctionCall>,
                                 parse: string -> Result<Value, string>,
                                 run: (Tool, Value) -> Result<string, string>)
    ensures ExecuteAll(tools, calls, parse, run).Ok?
        <==> forall k :: 0 <= k < |calls| ==> FirstWhere(tools, NameIs(calls[k].name)).Some?
  {
    if ExecuteAll(tools, calls, parse, run).Err? {
      var r := ExecuteAll(tools, calls, parse, run);
      var k :| 0 <= k < |calls| && ExecuteToolCall(tools, calls[k], parse, run) == Err(r.error);
      ExecuteToolCallResult(tools, calls[k], parse, run);
    } else {
      forall k | 0 <= k < |calls| ensures FirstWhere(tools, NameIs(calls[k].name)).Some? {
        ExecuteToolCallResult(tools, calls[k], parse, run);
      }
    }
  }

  /** handle_user_message: the session grows by the system message and the
      user message, then, after a first answer that is not text, by the
      assistant's calls and by their results, and the model is asked once
      more without tools. */
  method HandleUserMessage(content: string, tools: seq<Tool>,
                           model: CreateRequest -> CreateContent,
                           parse: string -> Result<Value, string>,
                           run: (Tool, Value) -> Result<string, string>)
    returns (reply: Result<CreateContent, ToolError>, requests: seq<CreateRequest>)
    ensures 1 <= |requests| <= 2
    ensures requests[0] == CreateRequest([SystemMessage(SystemPrompt), UserMessage(content, "user")], tools)
    ensures model(requests[0]).Text? ==> |requests| == 1 && reply == Ok(model(requests[0]))
    ensures model(requests[0]).Calls? ==>
      var calls := model(requests[0]).calls;
      match ExecuteAll(tools, calls, parse, run)
      case Err(e) => reply == Err(e) && |requests| == 1
      case Ok(results) =>
        && |requests| == 2
        && requests[1] == CreateRequest(requests[0].messages
                                        + [AssistantMessage(calls, "assistant"), FunctionExecutionResultMessage(results)], [])
        && reply == Ok(model(requests[1]))
  {
    var session := [SystemMessage(SystemPrompt)] + [UserMessage(content, "user")];
    var first := CreateRequest(session, tools);
    requests := [first];
    var createResult := model(first);
    if createResult.Text? {
      return Ok(createResult), requests;
    }
    session := session + [AssistantMessage(createResult.calls, "assistant")];
    var results := ExecuteAll(tools, createResult.calls, parse, run);
    if results.Err? {
      return Err(results.error), requests;
    }
    session := session + [FunctionExecutionResultMessage(results.value)];
    var second := CreateRequest(session, []);
    requests := requests + [second];
    reply := Ok(model(second));
  }

  /** sum_of_number. */
  function SumOfNumber(number1: int, number2: int): int
  {
    number1 + number2
  }

  /** The three tools of the entry point, in registration order. */
  const ExampleTools: seq<Tool> := [
    Tool("get_stock_price", "Get the stock price."),
    Tool("sum_of_number", "Get sum of number1 and number2"),
    Tool("save_code_to_file", "Save the generated code to a file")
  ]

  /** A run of sum_of_number on its two named integer arguments. */
  function RunSum(show: int -> string, arguments: Value): Result<string, string>
  {
    if arguments.Object? && "number1" in arguments.fields && "number2" in arguments.fields
       && arguments.fields["number1"].Num? && arguments.fields["number2"].Num?
    then Ok(show(SumOfNumber(arguments.fields["number1"].n, arguments.fields["number2"].n)))
    else Err("invalid arguments")
  }

  /** A call of sum_of_number is dispatched to the second tool and answers
      the rendered sum, with the call's id. */
  lemma SumOfNumberCall(id: string, argumentsText: string, a: int, b: int, show: int -> string,
                        parse: string -> Result<Value, string>, run: (Tool, Value) -> Result<string, string>)
    requires parse(argumentsText) == Ok(Object(map["number1" := Num(a), "number2" := Num(b)]))
    requires forall v :: run(ExampleTools[1], v) == RunSum(show, v)
    ensures FirstWhere(ExampleTools, NameIs("sum_of_number")) == Some(1)
    ensures ExecuteToolCall(ExampleTools, FunctionCall(id, "sum_of_number", argumentsText), parse, run)
         == Ok(FunctionExecutionResult(id, show(a + b), false, "sum_of_number"))
  {
    assert ExampleTools[0].name != "sum_of_number";
  }
}
