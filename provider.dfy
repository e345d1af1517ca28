/** The provider interface (src/llm_toolbridge/core/provider.py): the tool
    call and response records every provider produces, and a provider whose
    model replies are given as a function of the request number and the
    request. */
module ProviderInterface {

  import opened Common
  import opened Tool

  /** `ProviderConfig`: the base configuration declares no fields. */
  datatype ProviderConfig = ProviderConfig

  /** A tool call requested by the model. */
  datatype ToolCall = ToolCall(toolName: string, arguments: Dict<Value>, callId: Option<string>)

  /** `ToolCall(tool_name=..., arguments=...)`: no call id. */
  function NewToolCall(toolName: string, arguments: Dict<Value>): (c: ToolCall)
    ensures c.toolName == toolName && c.arguments == arguments && c.callId == None
  {
    ToolCall(toolName, arguments, None)
  }

  /** A model response: optional text and the tool calls it requests. */
  datatype LLMResponse = LLMResponse(content: Option<string>, toolCalls: seq<ToolCall>)

  /** `LLMResponse()`: no content and no tool calls. */
  function NewLLMResponse(): (r: LLMResponse)
    ensures r.content == None && r.toolCalls == []
  {
    LLMResponse(None, [])
  }

  /** `tool_call.call_id or tool_call.tool_name`: the key a tool result is
      stored under. An empty call id is falsy and falls back to the name. */
  function ResultKey(c: ToolCall): (k: string)
    ensures c.callId.Some? && c.callId.value != "" ==> k == c.callId.value
    ensures c.callId.None? || c.callId.value == "" ==> k == c.toolName
  {
    match c.callId
    case Some(id) => if id != "" then id else c.toolName
    case None => c.toolName
  }

  /** `results[key(c)] = value(c)` for each call in order: a later call with
      the same key overwrites the earlier value (keeping its position). */
  function Accumulate(results: Dict<Value>, calls: seq<ToolCall>, value: ToolCall -> Value): Dict<Value> {
    if calls == [] then results
    else
      var last := calls[|calls| - 1];
      Put(Accumulate(results, calls[..|calls| - 1], value), ResultKey(last), value(last))
  }

  /** A key no call produces keeps its earlier value (or stays absent). */
  lemma {:induction false} AccumulateUntouched(results: Dict<Value>, calls: seq<ToolCall>, value: ToolCall -> Value, k: string)
    requires forall j | 0 <= j < |calls| :: ResultKey(calls[j]) != k
    ensures Lookup(Accumulate(results, calls, value), k) == Lookup(results, k)
  {
    if calls != [] {
      AccumulateUntouched(results, calls[..|calls| - 1], value, k);
    }
  }

  /** The value stored under a key is that of the last call with that key. */
  lemma {:induction false} AccumulateLastWins(results: Dict<Value>, calls: seq<ToolCall>, value: ToolCall -> Value, j: nat)
    requires j < |calls|
    requires forall j' | j < j' < |calls| :: ResultKey(calls[j']) != ResultKey(calls[j])
    ensures Lookup(Accumulate(results, calls, value), ResultKey(calls[j])) == Some(value(calls[j]))
  {
    var init := calls[..|calls| - 1];
    if j < |calls| - 1 {
      assert forall j' | j < j' < |init| :: init[j'] == calls[j'];
      AccumulateLastWins(results, init, value, j);
      assert init[j] == calls[j];
    }
  }

  /** Keys are never lost: every earlier key and every call's key is present. */
  lemma {:induction false} AccumulateKeeps(results: Dict<Value>, calls: seq<ToolCall>, value: ToolCall -> Value, k: string)
    requires Lookup(results, k).Some? || exists j | 0 <= j < |calls| :: ResultKey(calls[j]) == k
    ensures Lookup(Accumulate(results, calls, value), k).Some?
  {
    if calls != [] {
      var init := calls[..|calls| - 1];
      var last := calls[|calls| - 1];
      if k != ResultKey(last) {
        if exists j | 0 <= j < |calls| :: ResultKey(calls[j]) == k {
          var j :| 0 <= j < |calls| && ResultKey(calls[j]) == k;
          assert init[j] == calls[j];
        }
        AccumulateKeeps(results, init, value, k);
      }
    }
  }

  /** No other key appears. */
  lemma {:induction false} AccumulateOnly(results: Dict<Value>, calls: seq<ToolCall>, value: ToolCall -> Value, k: string)
    requires Lookup(Accumulate(results, calls, value), k).Some?
    ensures Lookup(results, k).Some? || exists j | 0 <= j < |calls| :: ResultKey(calls[j]) == k
  {
    if calls != [] {
      var init := calls[..|calls| - 1];
      var last := calls[|calls| - 1];
      if k != ResultKey(last) {
        AccumulateOnly(results, init, value, k);
        if exists j | 0 <= j < |init| :: ResultKey(init[j]) == k {
          var j :| 0 <= j < |init| && ResultKey(init[j]) == k;
          assert calls[j] == init[j];
        }
      } else {
        assert ResultKey(calls[|calls| - 1]) == k;
      }
    }
  }

  // ---------------------------------------------------------------------------
  // The provider interface
  // ---------------------------------------------------------------------------

  /** The concrete provider class an object is an instance of. */
  datatype ProviderKind = OpenAIProviderKind | AzureOpenAIProviderKind | GeminiProviderKind | OtherProvider(name: string)

  /** A keyword argument of `generate`: absent/None, text, a tool list, a
      tool-result dictionary, or any other value. */
  datatype Arg = ANone | AText(text: string) | ATools(tools: seq<Tool>) | AResults(results: Dict<Value>) | AValue(value: Value)

  /** The arguments of one `generate` request: `prompt`, `tools`,
      `tool_results` and every further keyword argument. */
  datatype GenerateCall = GenerateCall(prompt: Arg, tools: Arg, toolResults: Arg, extras: Dict<Arg>)

  /** Keyword arguments forwarded as `**kwargs`. */
  function ExtraArgs(kwargs: Dict<Value>): (r: Dict<Arg>)
    ensures |r| == |kwargs|
    ensures forall i | 0 <= i < |kwargs| :: r[i] == (kwargs[i].0, AValue(kwargs[i].1))
  {
    MapValues(kwargs, v => AValue(v))
  }

  /** What the asynchronous `generate` raises or returns, given what the
      synchronous generation did: the Gemini provider wraps every failure
      once more in `RuntimeError("Gemini API error: ...")`; the other
      providers pass it through. */
  function GenerateOutcome(kind: ProviderKind, r: Result<LLMResponse>): (o: Result<LLMResponse>)
    ensures r.Ok? ==> o == r
    ensures r.Err? && kind != GeminiProviderKind ==> o == r
    ensures r.Err? && kind == GeminiProviderKind ==>
      o == Err(Exc(RuntimeError, "Gemini API error: " + Str(r.error)))
  {
    if r.Err? && kind == GeminiProviderKind then Err(Exc(RuntimeError, "Gemini API error: " + Str(r.error)))
    else r
  }

  /** A provider: its class, and the model behind it. The model's answer to
      a request is whatever `_generate_sync` returns or raises; it may depend
      on the request and on how many requests of the same run came before
      it (`n`, counted from 0). */
  datatype Provider = Provider(kind: ProviderKind, model: (nat, GenerateCall) -> Result<LLMResponse>)

  /** `await generate(...)` as the `n`-th request of a run: the synchronous
      generation, error-wrapped as the provider's class does. */
  function Generate(p: Provider, n: nat, call: GenerateCall): (r: Result<LLMResponse>)
    ensures r.Ok? <==> p.model(n, call).Ok?
    ensures r.Ok? ==> r == p.model(n, call)
    ensures p.kind != GeminiProviderKind ==> r == p.model(n, call)
  {
    GenerateOutcome(p.kind, p.model(n, call))
  }

  /** The arguments of `generate` as the adapters and bridges pass them. */
  datatype Inputs = Inputs(prompt: string, tools: seq<Tool>, results: Dict<Value>, kwargs: Dict<Value>)

  function ArgValue(a: Arg): Value {
    if a.AValue? then a.value else VNone
  }

  /** `None` for tools or results counts as none at all (`if tools:`,
      `if tool_results:`); arguments of any other shape are not modelled. */
  function CallInputs(call: GenerateCall): (r: Option<Inputs>)
    ensures r.Some? <==> (call.prompt.AText? && (call.tools.ANone? || call.tools.ATools?)
      && (call.toolResults.ANone? || call.toolResults.AResults?) && forall i | 0 <= i < |call.extras| :: call.extras[i].1.AValue?)
  {
    if call.prompt.AText? && (call.tools.ANone? || call.tools.ATools?)
      && (call.toolResults.ANone? || call.toolResults.AResults?) && forall i | 0 <= i < |call.extras| :: call.extras[i].1.AValue?
    then Some(Inputs(call.prompt.text,
                     if call.tools.ATools? then call.tools.tools else [],
                     if call.toolResults.AResults? then call.toolResults.results else [],
                     MapValues(call.extras, ArgValue)))
    else None
  }

  lemma ExtraArgsValues(kwargs: Dict<Value>)
    ensures MapValues(ExtraArgs(kwargs), ArgValue) == kwargs
  {
  }
}
