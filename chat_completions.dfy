/** The chat-completions side of the OpenAI provider
    (src/llm_toolbridge/providers/openai.py) and of the Azure OpenAI provider
    (src/providers/azure_openai.py), whose code is the same but for three
    points gathered in `Flavor`: the role of a tool-result message, the tool
    serialiser, and the prefix of the error a failed request raises.

    The SDK is abstracted away: a response is the explicit datatype
    `RawResponse`, the completion call is a function from the request
    parameters to a response or an exception, and `json.loads` /
    `json.dumps` are parameters. */
module ChatCompletions {

  import opened Common
  import opened Tool
  import opened ProviderInterface

  // ---------------------------------------------------------------------------
  // The SDK's response objects
  // ---------------------------------------------------------------------------

  datatype RawFunction = RawFunction(name: string, arguments: string)

  /** A raw tool call; `callType` is `None` when the object has no `type`
      attribute. */
  datatype RawCall = RawCall(callType: Option<string>, fn: RawFunction, id: string)

  /** `message.tool_calls`: absent, present but `None` (a message without
      tool calls), or a list. */
  datatype CallsAttr = NoCallsAttr | NullCalls | CallList(calls: seq<RawCall>)

  datatype RawMessage = RawMessage(content: Option<string>, toolCalls: CallsAttr)

  /** A choice; `message` is `None` when the object has no `message`
      attribute. */
  datatype RawChoice = RawChoice(message: Option<RawMessage>)

  /** A completion; `choices` is `None` when the object has no `choices`
      attribute. */
  datatype RawResponse = RawResponse(choices: Option<seq<RawChoice>>)

  /** `json.loads`: the decoded value, or `None` for a `JSONDecodeError`. */
  type JsonDecode = string -> Option<Value>

  // ---------------------------------------------------------------------------
  // parse_tool_calls
  // ---------------------------------------------------------------------------

  /** The arguments of a call whose argument text is not valid JSON. */
  function InvalidJsonArguments(): Dict<Value> {
    [("error", VStr("Invalid JSON in arguments"))]
  }

  /** What one raw call contributes: nothing unless its type is
      "function"; otherwise a tool call, with the marker for arguments that
      do not decode. Arguments that decode to something other than an
      object make the `ToolCall` constructor raise, which the outer
      `except` turns into the end of parsing. */
  datatype Step = Skip | Emit(call: ToolCall) | Halt

  function CallStep(raw: RawCall, decode: JsonDecode): (s: Step)
    ensures raw.callType != Some("function") <==> s.Skip?
    ensures s.Emit? ==> s.call.toolName == raw.fn.name && s.call.callId == Some(raw.id)
    ensures s.Emit? && decode(raw.fn.arguments).None? ==> s.call.arguments == InvalidJsonArguments()
    ensures s.Emit? && decode(raw.fn.arguments).Some? ==>
      decode(raw.fn.arguments) == Some(VDict(s.call.arguments))
    ensures s.Halt? <==> (raw.callType == Some("function")
      && decode(raw.fn.arguments).Some? && !decode(raw.fn.arguments).value.VDict?)
  {
    if raw.callType != Some("function") then Skip
    else
      match decode(raw.fn.arguments)
      case None => Emit(ToolCall(raw.fn.name, InvalidJsonArguments(), Some(raw.id)))
      case Some(v) =>
        if v.VDict? then Emit(ToolCall(raw.fn.name, v.entries, Some(raw.id))) else Halt
  }

  /** The calls collected, and whether an exception ended the parsing. */
  datatype Parse = Parse(calls: seq<ToolCall>, halted: bool)

  function Prepend(done: seq<ToolCall>, p: Parse): Parse {
    Parse(done + p.calls, p.halted)
  }

  /** The inner loop over one message's raw calls. */
  function CallsParse(raws: seq<RawCall>, decode: JsonDecode): Parse
    decreases |raws|
  {
    if raws == [] then Parse([], false)
    else
      match CallStep(raws[0], decode)
      case Skip => CallsParse(raws[1..], decode)
      case Halt => Parse([], true)
      case Emit(c) => Prepend([c], CallsParse(raws[1..], decode))
  }

  /** The raw calls of a choice: none without a message or without a
      `tool_calls` attribute; `None` when `tool_calls` is `None`, whose
      iteration raises. */
  function ChoiceCalls(c: RawChoice): Option<seq<RawCall>> {
    match c.message
    case None => Some([])
    case Some(m) =>
      match m.toolCalls
      case NoCallsAttr => Some([])
      case NullCalls => None
      case CallList(raws) => Some(raws)
  }

  /** After one choice's calls: stop if they halted, else go on with the
      remaining choices. */
  function Continue(p: Parse, rest: seq<RawChoice>, decode: JsonDecode): Parse
    decreases |rest|, 1
  {
    if p.halted then p else Prepend(p.calls, ChoicesParse(rest, decode))
  }

  /** The outer loop over the choices. */
  function ChoicesParse(choices: seq<RawChoice>, decode: JsonDecode): Parse
    decreases |choices|, 0
  {
    if choices == [] then Parse([], false)
    else
      match ChoiceCalls(choices[0])
      case None => Parse([], true)
      case Some(raws) => Continue(CallsParse(raws, decode), choices[1..], decode)
  }

  function ChoicesOf(raw: RawResponse): seq<RawChoice> {
    if raw.choices.Some? then raw.choices.value else []
  }

  /** `parse_tool_calls(raw_response)`. */
  function ParsedToolCalls(raw: RawResponse, decode: JsonDecode): seq<ToolCall> {
    ChoicesParse(ChoicesOf(raw), decode).calls
  }

  lemma CallsParseStep(raws: seq<RawCall>, j: nat, decode: JsonDecode)
    requires j < |raws|
    ensures CallStep(raws[j], decode).Skip? ==> CallsParse(raws[j..], decode) == CallsParse(raws[j + 1..], decode)
    ensures CallStep(raws[j], decode).Halt? ==> CallsParse(raws[j..], decode) == Parse([], true)
    ensures CallStep(raws[j], decode).Emit? ==>
      CallsParse(raws[j..], decode) == Prepend([CallStep(raws[j], decode).call], CallsParse(raws[j + 1..], decode))
  {
    assert raws[j..][0] == raws[j] && raws[j..][1..] == raws[j + 1..];
  }

  lemma ChoicesParseStep(choices: seq<RawChoice>, i: nat, decode: JsonDecode)
    requires i < |choices|
    ensures ChoiceCalls(choices[i]).None? ==> ChoicesParse(choices[i..], decode) == Parse([], true)
    ensures ChoiceCalls(choices[i]).Some? ==>
      ChoicesParse(choices[i..], decode) == Continue(CallsParse(ChoiceCalls(choices[i]).value, decode), choices[i + 1..], decode)
  {
    assert choices[i..][0] == choices[i] && choices[i..][1..] == choices[i + 1..];
  }

  lemma PrependTwice(a: seq<ToolCall>, b: seq<ToolCall>, p: Parse)
    ensures Prepend(a, Prepend(b, p)) == Prepend(a + b, p)
  {
    assert a + (b + p.calls) == (a + b) + p.calls;
  }

  lemma ContinuePrepend(c: ToolCall, p: Parse, rest: seq<RawChoice>, decode: JsonDecode)
    ensures Continue(Prepend([c], p), rest, decode) == Prepend([c], Continue(p, rest, decode))
  {
    if !p.halted {
      PrependTwice([c], p.calls, ChoicesParse(rest, decode));
    }
  }

  /** `parse_tool_calls(raw_response)`: the function-type calls of every
      choice in order, stopping (and keeping what was collected) at the
      first exception. */
  method ParseToolCalls(raw: RawResponse, decode: JsonDecode) returns (calls: seq<ToolCall>)
    ensures calls == ParsedToolCalls(raw, decode)
  {
    calls := [];
    var choices := ChoicesOf(raw);
    var i := 0;
    while i < |choices|
      invariant 0 <= i <= |choices|
      invariant Prepend(calls, ChoicesParse(choices[i..], decode)) == ChoicesParse(choices, decode)
    {
      ChoicesParseStep(choices, i, decode);
      var raws := ChoiceCalls(choices[i]);
      if raws.None? {
        return;
      }
      var rest := choices[i + 1..];
      var j := 0;
      while j < |raws.value|
        invariant 0 <= j <= |raws.value|
        invariant Prepend(calls, Continue(CallsParse(raws.value[j..], decode), rest, decode)) == ChoicesParse(choices, decode)
      {
        var step := CallStep(raws.value[j], decode);
        CallsParseStep(raws.value, j, decode);
        match step {
          case Skip =>
          case Halt =>
            return;
          case Emit(c) =>
            ContinuePrepend(c, CallsParse(raws.value[j + 1..], decode), rest, decode);
            PrependTwice(calls, [c], Continue(CallsParse(raws.value[j + 1..], decode), rest, decode));
            calls := calls + [c];
        }
        j := j + 1;
      }
      assert raws.value[j..] == [];
      i := i + 1;
    }
    assert choices[i..] == [];
  }

  // ---------------------------------------------------------------------------
  // A flat reference for parse_tool_calls
  // ---------------------------------------------------------------------------

  /** Every raw call the response lists, choice after choice. */
  function AllRawCalls(choices: seq<RawChoice>): seq<RawCall> {
    if choices == [] then []
    else (if ChoiceCalls(choices[0]).Some? then ChoiceCalls(choices[0]).value else []) + AllRawCalls(choices[1..])
  }

  /** The tool calls of the function-type raw calls, in order. */
  function Converted(raws: seq<RawCall>, decode: JsonDecode): seq<ToolCall> {
    if raws == [] then []
    else (if CallStep(raws[0], decode).Emit? then [CallStep(raws[0], decode).call] else []) + Converted(raws[1..], decode)
  }

  /** A response whose parsing raises nowhere: no `tool_calls` is `None`
      and no function-type call has arguments that decode to a non-object. */
  predicate Clean(choices: seq<RawChoice>, decode: JsonDecode) {
    forall c | c in choices :: ChoiceCalls(c).Some? && forall raw | raw in ChoiceCalls(c).value :: !CallStep(raw, decode).Halt?
  }

  lemma {:induction false} ConvertedAppend(a: seq<RawCall>, b: seq<RawCall>, decode: JsonDecode)
    ensures Converted(a + b, decode) == Converted(a, decode) + Converted(b, decode)
  {
    if a == [] {
      assert a + b == b;
    } else {
      var head := if CallStep(a[0], decode).Emit? then [CallStep(a[0], decode).call] else [];
      assert (a + b)[0] == a[0] && (a + b)[1..] == a[1..] + b;
      assert Converted(a + b, decode) == head + Converted(a[1..] + b, decode);
      ConvertedAppend(a[1..], b, decode);
      assert Converted(a, decode) == head + Converted(a[1..], decode);
    }
  }

  lemma {:induction false} CallsParseConverted(raws: seq<RawCall>, decode: JsonDecode)
    ensures CallsParse(raws, decode).calls <= Converted(raws, decode)
    ensures !CallsParse(raws, decode).halted ==> CallsParse(raws, decode).calls == Converted(raws, decode)
    ensures (forall raw | raw in raws :: !CallStep(raw, decode).Halt?) ==> !CallsParse(raws, decode).halted
  {
    if raws != [] {
      CallsParseConverted(raws[1..], decode);
      assert forall raw | raw in raws[1..] :: raw in raws;
    }
  }

  lemma {:induction false} ChoicesParseConverted(choices: seq<RawChoice>, decode: JsonDecode)
    ensures ChoicesParse(choices, decode).calls <= Converted(AllRawCalls(choices), decode)
    ensures Clean(choices, decode) ==> ChoicesParse(choices, decode) == Parse(Converted(AllRawCalls(choices), decode), false)
  {
    if choices != [] {
      ChoicesParseConverted(choices[1..], decode);
      assert forall c | c in choices[1..] :: c in choices;
      var raws := if ChoiceCalls(choices[0]).Some? then ChoiceCalls(choices[0]).value else [];
      ConvertedAppend(raws, AllRawCalls(choices[1..]), decode);
      CallsParseConverted(raws, decode);
    }
  }

  /** What `parse_tool_calls` returns is always a prefix of the calls a
      reader of the response would collect: an exception only cuts the list
      short. */
  lemma ParsedPrefix(raw: RawResponse, decode: JsonDecode)
    ensures ParsedToolCalls(raw, decode) <= Converted(AllRawCalls(ChoicesOf(raw)), decode)
  {
    ChoicesParseConverted(ChoicesOf(raw), decode);
  }

  /** Without an exception, `parse_tool_calls` collects every function-type
      call of every choice. */
  lemma ParsedComplete(raw: RawResponse, decode: JsonDecode)
    requires Clean(ChoicesOf(raw), decode)
    ensures ParsedToolCalls(raw, decode) == Converted(AllRawCalls(ChoicesOf(raw)), decode)
  {
    ChoicesParseConverted(ChoicesOf(raw), decode);
  }

  // ---------------------------------------------------------------------------
  // _parse_response
  // ---------------------------------------------------------------------------

  const NoResponseText: string := "No response generated"

  function FirstContent(c: RawChoice): Option<string> {
    if c.message.Some? then c.message.value.content else None
  }

  /** `_parse_response(response)`. Its `except` branch cannot be reached:
      every step it guards is total on the modelled response. */
  function Normalised(raw: RawResponse, decode: JsonDecode): (r: LLMResponse)
    ensures ChoicesOf(raw) == [] ==> r == LLMResponse(Some(NoResponseText), [])
    ensures ChoicesOf(raw) != [] ==>
      r.content == FirstContent(ChoicesOf(raw)[0]) && r.toolCalls == ParsedToolCalls(raw, decode)
  {
    var choices := ChoicesOf(raw);
    if choices == [] then LLMResponse(Some(NoResponseText), [])
    else LLMResponse(FirstContent(choices[0]), ParsedToolCalls(raw, decode))
  }

  method ParseResponse(raw: RawResponse, decode: JsonDecode) returns (r: LLMResponse)
    ensures r == Normalised(raw, decode)
  {
    var choices := ChoicesOf(raw);
    if choices == [] {
      return LLMResponse(Some(NoResponseText), []);
    }
    var calls := ParseToolCalls(raw, decode);
    r := LLMResponse(FirstContent(choices[0]), calls);
  }

  // ---------------------------------------------------------------------------
  // The request
  // ---------------------------------------------------------------------------

  /** What the two chat providers do differently. */
  datatype Flavor = Flavor(resultRole: string, serialise: Tool -> Dict<Value>, failurePrefix: string)

  /** The float defaults of `temperature` and `top_p` (0.7 and 1.0), which
      `Value` has no literal for. */
  datatype Sampling = Sampling(temperature: Value, topP: Value)

  function FormattedTool(flavor: Flavor, t: Tool): (v: Value)
    ensures v.VDict? && Keys(v.entries) == ["type", "function"]
    ensures Lookup(v.entries, "type") == Some(VStr("function"))
    ensures Lookup(v.entries, "function") == Some(VDict(flavor.serialise(t)))
  {
    VDict([("type", VStr("function")), ("function", VDict(flavor.serialise(t)))])
  }

  /** `format_tools_for_provider(tools)`: one entry per tool, in order. */
  method FormatTools(flavor: Flavor, tools: seq<Tool>) returns (r: seq<Value>)
    ensures |r| == |tools|
    ensures forall i | 0 <= i < |tools| :: r[i] == FormattedTool(flavor, tools[i])
  {
    r := [];
    for i := 0 to |tools|
      invariant |r| == i
      invariant forall j | 0 <= j < i :: r[j] == FormattedTool(flavor, tools[j])
    {
      r := r + [FormattedTool(flavor, tools[i])];
    }
  }

  function UserMessage(prompt: string): Value {
    VDict([("role", VStr("user")), ("content", VStr(prompt))])
  }

  function ResultMessage(role: string, key: string, result: Value, encode: Value -> string): Value {
    VDict([("role", VStr(role)), ("tool_call_id", VStr(key)), ("content", VStr(encode(result)))])
  }

  /** The conversation sent: the prompt, then one message per stored tool
      result, in the results' order. */
  function Messages(flavor: Flavor, prompt: string, results: Dict<Value>, encode: Value -> string): (m: seq<Value>)
    ensures |m| == 1 + |results| && m[0] == UserMessage(prompt)
  {
    [UserMessage(prompt)] + seq(|results|, i requires 0 <= i < |results| =>
      ResultMessage(flavor.resultRole, results[i].0, results[i].1, encode))
  }

  /** The message loop of `_generate_sync`. */
  method BuildMessages(flavor: Flavor, prompt: string, results: Dict<Value>, encode: Value -> string)
    returns (messages: seq<Value>)
    ensures messages == Messages(flavor, prompt, results, encode)
  {
    messages := [UserMessage(prompt)];
    for i := 0 to |results|
      invariant messages == Messages(flavor, prompt, results[..i], encode)
    {
      assert results[..i + 1][..i] == results[..i];
      messages := messages + [ResultMessage(flavor.resultRole, results[i].0, results[i].1, encode)];
    }
    assert results[..|results|] == results;
  }

  /** Every stored result reaches the model, under its own key. */
  lemma MessageForKey(flavor: Flavor, prompt: string, results: Dict<Value>, encode: Value -> string, k: string)
    requires HasKey(results, k)
    ensures var m := Messages(flavor, prompt, results, encode);
      m[1 + IndexOfKey(results, k)] == ResultMessage(flavor.resultRole, k, Lookup(results, k).value, encode)
  {
    var i := IndexOfKey(results, k);
    LookupAt(results, i);
  }

  /** And every message after the first carries one of them. */
  lemma MessageFromResult(flavor: Flavor, prompt: string, results: Dict<Value>, encode: Value -> string, j: nat)
    requires 1 <= j < |Messages(flavor, prompt, results, encode)|
    ensures exists k | HasKey(results, k) ::
      Messages(flavor, prompt, results, encode)[j] == ResultMessage(flavor.resultRole, k, Lookup(results, k).value, encode)
  {
    LookupAt(results, j - 1);
  }

  function FormattedTools(flavor: Flavor, tools: seq<Tool>): seq<Value> {
    seq(|tools|, i requires 0 <= i < |tools| => FormattedTool(flavor, tools[i]))
  }

  /** The keyword arguments `_generate_sync` passes to
      `chat.completions.create`, one field each; `tools` and `tool_choice`
      are `None` when they are not passed at all. */
  datatype ChatRequest = ChatRequest(model: string, messages: seq<Value>, temperature: Value, maxTokens: Value,
                                     topP: Value, tools: Option<seq<Value>>, toolChoice: Option<Value>)

  /** The request parameters of `_generate_sync`: only `temperature`,
      `max_tokens`, `top_p` and `tool_choice` are read from the keyword
      arguments, and the tool entries are passed exactly when there are
      tools. */
  function RequestParams(model: string, messages: seq<Value>, formatted: seq<Value>, kwargs: Dict<Value>, sampling: Sampling)
    : (r: ChatRequest)
    ensures r.model == model && r.messages == messages
    ensures r.temperature == GetOr(kwargs, "temperature", sampling.temperature)
    ensures r.maxTokens == GetOr(kwargs, "max_tokens", VInt(800))
    ensures r.topP == GetOr(kwargs, "top_p", sampling.topP)
    ensures r.tools.Some? <==> formatted != []
    ensures r.toolChoice.Some? <==> formatted != []
    ensures formatted != [] ==> r.tools == Some(formatted) && r.toolChoice == Some(GetOr(kwargs, "tool_choice", VStr("auto")))
  {
    var base := ChatRequest(model, messages, GetOr(kwargs, "temperature", sampling.temperature),
                            GetOr(kwargs, "max_tokens", VInt(800)), GetOr(kwargs, "top_p", sampling.topP), None, None);
    if formatted == [] then base
    else base.(tools := Some(formatted), toolChoice := Some(GetOr(kwargs, "tool_choice", VStr("auto"))))
  }

  /** The request one call sends. */
  function Request(flavor: Flavor, model: string, sampling: Sampling, encode: Value -> string,
                   prompt: string, tools: seq<Tool>, results: Dict<Value>, kwargs: Dict<Value>): ChatRequest {
    RequestParams(model, Messages(flavor, prompt, results, encode), FormattedTools(flavor, tools), kwargs, sampling)
  }

  /** `chat.completions.create`: the response, or the exception it raised. */
  type Client = ChatRequest -> Result<RawResponse>

  /** `_generate_sync`: the API's answer normalised, or a generic exception
      carrying the provider's prefix and the API error's text. */
  function Generated(flavor: Flavor, model: string, sampling: Sampling, client: Client, decode: JsonDecode,
                     encode: Value -> string, prompt: string, tools: seq<Tool>, results: Dict<Value>, kwargs: Dict<Value>)
    : (r: Result<LLMResponse>)
    ensures var answer := client(Request(flavor, model, sampling, encode, prompt, tools, results, kwargs));
      && (r.Ok? <==> answer.Ok?)
      && (r.Ok? ==> r.value == Normalised(answer.value, decode))
      && (r.Err? ==> r.error == Exc(GenericException, flavor.failurePrefix + Str(answer.error)))
  {
    match client(Request(flavor, model, sampling, encode, prompt, tools, results, kwargs))
    case Err(e) => Err(Exc(GenericException, flavor.failurePrefix + Str(e)))
    case Ok(raw) => Ok(Normalised(raw, decode))
  }

  method GenerateSync(flavor: Flavor, model: string, sampling: Sampling, client: Client, decode: JsonDecode,
                      encode: Value -> string, prompt: string, tools: seq<Tool>, results: Dict<Value>, kwargs: Dict<Value>)
    returns (r: Result<LLMResponse>)
    ensures r == Generated(flavor, model, sampling, client, decode, encode, prompt, tools, results, kwargs)
  {
    var messages := BuildMessages(flavor, prompt, results, encode);
    var formatted := [];
    if tools != [] {
      formatted := FormatTools(flavor, tools);
    }
    assert formatted == FormattedTools(flavor, tools);
    var answer := client(RequestParams(model, messages, formatted, kwargs, sampling));
    if answer.Err? {
      return Err(Exc(GenericException, flavor.failurePrefix + Str(answer.error)));
    }
    var response := ParseResponse(answer.value, decode);
    r := Ok(response);
  }

  // ---------------------------------------------------------------------------
  // As a provider
  // ---------------------------------------------------------------------------

  /** The `model` of a chat provider whose client answers the n-th request
      of a run with `client(n, params)`. */
  function ChatModel(flavor: Flavor, model: string, sampling: Sampling, client: (nat, ChatRequest) -> Result<RawResponse>,
                     decode: JsonDecode, encode: Value -> string): (nat, GenerateCall) -> Result<LLMResponse> {
    (n: nat, call: GenerateCall) =>
      var inputs := CallInputs(call);
      if inputs.None? then Err(Exc(TypeError, "unsupported arguments"))
      else Generated(flavor, model, sampling, (params: ChatRequest) => client(n, params), decode, encode,
                     inputs.value.prompt, inputs.value.tools, inputs.value.results, inputs.value.kwargs)
  }

  /** A request of the shape the adapters and bridges send is answered by
      `_generate_sync` on exactly its prompt, tools, results and keyword
      arguments. */
  lemma ChatModelAnswers(flavor: Flavor, model: string, sampling: Sampling, client: (nat, ChatRequest) -> Result<RawResponse>,
                         decode: JsonDecode, encode: Value -> string, n: nat,
                         prompt: string, tools: seq<Tool>, results: Dict<Value>, kwargs: Dict<Value>)
    ensures var answer := client(n, Request(flavor, model, sampling, encode, prompt, tools, results, kwargs));
      var r := ChatModel(flavor, model, sampling, client, decode, encode)(
        n, GenerateCall(AText(prompt), ATools(tools), AResults(results), ExtraArgs(kwargs)));
      && (answer.Ok? ==> r == Ok(Normalised(answer.value, decode)))
      && (answer.Err? ==> r == Err(Exc(GenericException, flavor.failurePrefix + Str(answer.error))))
  {
    ExtraArgsValues(kwargs);
  }

  lemma RequestMessages(flavor: Flavor, model: string, sampling: Sampling, encode: Value -> string,
                        prompt: string, tools: seq<Tool>, results: Dict<Value>, kwargs: Dict<Value>)
    ensures var req := Request(flavor, model, sampling, encode, prompt, tools, results, kwargs);
      && req.model == model
      && req.messages[0] == UserMessage(prompt)
      && (forall i | 0 <= i < |results| ::
            req.messages[1 + i] == ResultMessage(flavor.resultRole, results[i].0, results[i].1, encode))
  {
    var m := Messages(flavor, prompt, results, encode);
    assert forall i | 0 <= i < |results| :: m[1 + i] == ResultMessage(flavor.resultRole, results[i].0, results[i].1, encode);
  }

  lemma RequestTools(flavor: Flavor, model: string, sampling: Sampling, encode: Value -> string,
                     prompt: string, tools: seq<Tool>, results: Dict<Value>, kwargs: Dict<Value>)
    ensures var req := Request(flavor, model, sampling, encode, prompt, tools, results, kwargs);
      && (req.tools.Some? <==> tools != [])
      && (forall i | 0 <= i < |tools| && req.tools.Some? ::
            Lookup(req.tools.value[i].entries, "function") == Some(VDict(flavor.serialise(tools[i]))))
  {
    var f := FormattedTools(flavor, tools);
    assert |f| == |tools|;
    forall i | 0 <= i < |tools|
      ensures Lookup(f[i].entries, "function") == Some(VDict(flavor.serialise(tools[i])))
    {
      assert f[i] == FormattedTool(flavor, tools[i]);
    }
  }

  /** The request carries the model given, the prompt and then every stored
      result in order under the flavour's role, and the serialised tools
      exactly when there are tools. */
  lemma RequestShape(flavor: Flavor, model: string, sampling: Sampling, encode: Value -> string,
                     prompt: string, tools: seq<Tool>, results: Dict<Value>, kwargs: Dict<Value>)
    ensures var req := Request(flavor, model, sampling, encode, prompt, tools, results, kwargs);
      && req.model == model
      && req.messages[0] == UserMessage(prompt)
      && (forall i | 0 <= i < |results| ::
            req.messages[1 + i] == ResultMessage(flavor.resultRole, results[i].0, results[i].1, encode))
      && (req.tools.Some? <==> tools != [])
      && (forall i | 0 <= i < |tools| && req.tools.Some? ::
            Lookup(req.tools.value[i].entries, "function") == Some(VDict(flavor.serialise(tools[i]))))
  {
    RequestMessages(flavor, model, sampling, encode, prompt, tools, results, kwargs);
    RequestTools(flavor, model, sampling, encode, prompt, tools, results, kwargs);
  }
}
