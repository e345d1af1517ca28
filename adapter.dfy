/** The adapter base (src/core/adapter.py): provider capabilities, the
    processing of one tool call into a result record, and the two-round
    conversation that `execute_with_tools` runs over any concrete adapter.

    The conversation is specified here as a function of the model's replies;
    the method that runs it lives with the concrete adapters (module
    `Adapters`), whose `prepare_request`/`execute_request`/`parse_response`
    it calls. */
module AdapterBase {

  import opened Common
  import opened Text
  import opened Tool
  import opened LegacyTool
  import opened ProviderInterface

  /** `ProviderCapabilities`: what a provider supports. */
  datatype ProviderCapabilities = ProviderCapabilities(
    supportsToolCalling: bool,
    supportsMultipleTools: bool,
    supportsStreaming: bool,
    supportsVision: bool,
    maxTokensLimit: Option<int>)

  /** `ProviderCapabilities()`: nothing supported, no token limit. */
  function DefaultCapabilities(): (c: ProviderCapabilities)
    ensures !c.supportsToolCalling && !c.supportsMultipleTools
    ensures !c.supportsStreaming && !c.supportsVision
    ensures c.maxTokensLimit == None
  {
    ProviderCapabilities(false, false, false, false, None)
  }

  // ---------------------------------------------------------------------------
  // process_tool_call
  // ---------------------------------------------------------------------------

  /** `{tool.name: tool for tool in tools}`: a later tool with the same name
      replaces the earlier one. */
  function ToolsByName(tools: seq<Tool>): Dict<Tool> {
    if tools == [] then []
    else
      var last := tools[|tools| - 1];
      Put(ToolsByName(tools[..|tools| - 1]), last.name, last)
  }

  /** A name no tool carries is not in the dictionary. */
  lemma {:induction false} ToolsByNameAbsent(tools: seq<Tool>, n: string)
    requires forall j | 0 <= j < |tools| :: tools[j].name != n
    ensures Lookup(ToolsByName(tools), n) == None
  {
    if tools != [] {
      ToolsByNameAbsent(tools[..|tools| - 1], n);
    }
  }

  /** A name maps to the last tool carrying it. */
  lemma {:induction false} ToolsByNameLast(tools: seq<Tool>, j: nat)
    requires j < |tools|
    requires forall j' | j < j' < |tools| :: tools[j'].name != tools[j].name
    ensures Lookup(ToolsByName(tools), tools[j].name) == Some(tools[j])
  {
    var init := tools[..|tools| - 1];
    if j < |tools| - 1 {
      assert forall j' | j < j' < |init| :: init[j'] == tools[j'];
      ToolsByNameLast(init, j);
      assert init[j] == tools[j];
    }
  }

  /** `{"result": v, "success": True}`. */
  function SuccessRecord(v: Value): (r: Dict<Value>)
    ensures Keys(r) == ["result", "success"]
  {
    var r := [("result", v), ("success", VBool(true))];
    assert |r[0].0| == 6 && |r[1].0| == 7;
    r
  }

  /** `{"error": message, "success": False}`. */
  function ErrorRecord(message: string): (r: Dict<Value>)
    ensures Keys(r) == ["error", "success"]
  {
    var r := [("error", VStr(message)), ("success", VBool(false))];
    assert |r[0].0| == 5 && |r[1].0| == 7;
    r
  }

  function NotFoundMessage(name: string): string {
    "Tool '" + name + "' not found"
  }

  /** `process_tool_call`: look the tool up and invoke it; a missing tool, or
      a `KeyError` raised by the tool itself, gives the "not found" record,
      any other exception its message. Nothing is raised. */
  function ProcessToolCall(call: ToolCall, registered: Dict<Tool>): (r: Dict<Value>)
    ensures Lookup(registered, call.toolName).None? ==> r == ErrorRecord(NotFoundMessage(call.toolName))
    ensures Lookup(registered, call.toolName).Some? ==>
      var outcome := LegacyInvoke(Lookup(registered, call.toolName).value, call.arguments);
      r == (if outcome.Ok? then SuccessRecord(outcome.value)
            else if outcome.error.kind == KeyError then ErrorRecord(NotFoundMessage(call.toolName))
            else ErrorRecord(Str(outcome.error)))
  {
    match Lookup(registered, call.toolName)
    case None => ErrorRecord(NotFoundMessage(call.toolName))
    case Some(t) =>
      match LegacyInvoke(t, call.arguments)
      case Ok(v) => SuccessRecord(v)
      case Err(e) =>
        if e.kind == KeyError then ErrorRecord(NotFoundMessage(call.toolName))
        else ErrorRecord(Str(e))
  }

  /** The record says `success: True` exactly when the tool was found and
      returned, and then carries the returned value under `result`;
      otherwise it carries an `error` message. */
  lemma ProcessToolCallOutcome(call: ToolCall, registered: Dict<Tool>)
    ensures var r := ProcessToolCall(call, registered);
      var found := Lookup(registered, call.toolName);
      (Lookup(r, "success") == Some(VBool(true)) <==>
        found.Some? && LegacyInvoke(found.value, call.arguments).Ok?)
      && (found.Some? && LegacyInvoke(found.value, call.arguments).Ok? ==>
          Lookup(r, "result") == Some(LegacyInvoke(found.value, call.arguments).value)
          && !HasKey(r, "error"))
      && (Lookup(r, "success") == Some(VBool(false)) <==> HasKey(r, "error"))
  {
    var r := ProcessToolCall(call, registered);
    LookupAt(r, 0);
    LookupAt(r, 1);
    assert Keys(r)[0] == r[0].0 && Keys(r)[1] == r[1].0;
  }

  /** A tool with no function gives an error record, never an exception. */
  lemma ProcessToolCallNoFunction(call: ToolCall, registered: Dict<Tool>)
    requires Lookup(registered, call.toolName).Some?
    requires Lookup(registered, call.toolName).value.callable.None?
    ensures ProcessToolCall(call, registered) ==
      ErrorRecord("Tool '" + Lookup(registered, call.toolName).value.name + "' has no associated function")
  {
  }

  // ---------------------------------------------------------------------------
  // execute_with_tools, as a function of the model's replies
  // ---------------------------------------------------------------------------

  /** The default of `max_tool_calls`. */
  const DefaultMaxToolCalls := 10

  /** The `tools` argument as passed on: `None` or the list. */
  function ToolsArg(tools: Option<seq<Tool>>): (a: Arg)
    ensures tools.None? <==> a == ANone
  {
    match tools
    case None => ANone
    case Some(ts) => ATools(ts)
  }

  /** `tools or []`. */
  function ToolList(tools: Option<seq<Tool>>): seq<Tool> {
    match tools
    case None => []
    case Some(ts) => ts
  }

  /** The first request: the prompt, the tools, no tool results. */
  function FirstRequest(prompt: string, tools: Option<seq<Tool>>, extras: Dict<Value>): GenerateCall {
    GenerateCall(AText(prompt), ToolsArg(tools), ANone, ExtraArgs(extras))
  }

  /** The follow-up request: the prompt, no tools, the collected results. */
  function FollowUpRequest(prompt: string, results: Dict<Value>, extras: Dict<Value>): GenerateCall {
    GenerateCall(AText(prompt), ANone, AResults(results), ExtraArgs(extras))
  }

  /** `llm_response.tool_calls[:max_tool_calls]` for a positive bound. */
  function Processed(calls: seq<ToolCall>, max: int): (p: seq<ToolCall>)
    requires max >= 1
    ensures |p| == if |calls| < max then |calls| else max
    ensures p == calls[..|p|]
  {
    if |calls| <= max then calls else calls[..max]
  }

  /** The result dictionary the loop fills: `tool_results[key] = record`. */
  function CollectResults(calls: seq<ToolCall>, registered: Dict<Tool>): Dict<Value> {
    Accumulate([], calls, c => VDict(ProcessToolCall(c, registered)))
  }

  /** The exception raised in place of any failure inside the rounds. */
  function Wrap(e: Exc): (w: Exc)
    ensures w.kind == RuntimeError && StartsWith(w.message, "Tool execution failed: ")
  {
    var w := Exc(RuntimeError, "Tool execution failed: " + Str(e));
    assert w.message[..|"Tool execution failed: "|] == "Tool execution failed: ";
    w
  }

  /** What a round returns or raises, after wrapping. */
  function Wrapped(r: Result<LLMResponse>): Result<LLMResponse> {
    if r.Err? then Err(Wrap(r.error)) else r
  }

  /** What `execute_with_tools` returns or raises, and the requests it sends
      to the provider. */
  datatype Trace = Trace(result: Result<LLMResponse>, requests: seq<GenerateCall>)

  /** `execute_with_tools(prompt, tools, max_tool_calls, **extras)` against a
      provider whose reply to its `n`-th request is `reply(n, request)`,
      starting at request number `n0`. */
  function AdapterRun(reply: (nat, GenerateCall) -> Result<LLMResponse>, n0: nat,
                      prompt: string, tools: Option<seq<Tool>>, max: int, extras: Dict<Value>): Trace
  {
    if max < 1 then Trace(Err(Exc(ValueError, "max_tool_calls must be at least 1")), [])
    else
      var first := FirstRequest(prompt, tools, extras);
      var r1 := reply(n0, first);
      if r1.Err? then Trace(Err(Wrap(r1.error)), [first])
      else if r1.value.toolCalls == [] then Trace(r1, [first])
      else
        var results := CollectResults(Processed(r1.value.toolCalls, max), ToolsByName(ToolList(tools)));
        if results == [] then Trace(r1, [first])
        else
          var follow := FollowUpRequest(prompt, results, extras);
          Trace(Wrapped(reply(n0 + 1, follow)), [first, follow])
  }

  /** A bound below one is rejected before any request, and not wrapped. */
  lemma RunRejectsBound(reply: (nat, GenerateCall) -> Result<LLMResponse>, n0: nat,
                        prompt: string, tools: Option<seq<Tool>>, max: int, extras: Dict<Value>)
    requires max < 1
    ensures AdapterRun(reply, n0, prompt, tools, max, extras) ==
      Trace(Err(Exc(ValueError, "max_tool_calls must be at least 1")), [])
  {
  }

  /** Without tool calls in the first response there is exactly one round,
      and that response is returned unchanged. */
  lemma RunSingleRound(reply: (nat, GenerateCall) -> Result<LLMResponse>, n0: nat,
                       prompt: string, tools: Option<seq<Tool>>, max: int, extras: Dict<Value>)
    requires max >= 1
    requires reply(n0, FirstRequest(prompt, tools, extras)).Ok?
    requires reply(n0, FirstRequest(prompt, tools, extras)).value.toolCalls == []
    ensures AdapterRun(reply, n0, prompt, tools, max, extras) ==
      Trace(reply(n0, FirstRequest(prompt, tools, extras)), [FirstRequest(prompt, tools, extras)])
  {
  }

  /** A non-empty call list always yields at least one result, so the
      follow-up guard `if tool_results` always holds. */
  lemma ResultsNonEmpty(calls: seq<ToolCall>, registered: Dict<Tool>)
    requires calls != []
    ensures CollectResults(calls, registered) != []
  {
    AccumulateKeeps([], calls, c => VDict(ProcessToolCall(c, registered)), ResultKey(calls[0]));
  }

  /** With tool calls there is exactly one follow-up round, sent without
      tools and with the collected results; its response is returned even if
      it asks for more tools. */
  lemma RunFollowUp(reply: (nat, GenerateCall) -> Result<LLMResponse>, n0: nat,
                    prompt: string, tools: Option<seq<Tool>>, max: int, extras: Dict<Value>)
    requires max >= 1
    requires reply(n0, FirstRequest(prompt, tools, extras)).Ok?
    requires reply(n0, FirstRequest(prompt, tools, extras)).value.toolCalls != []
    ensures var calls := reply(n0, FirstRequest(prompt, tools, extras)).value.toolCalls;
      var results := CollectResults(Processed(calls, max), ToolsByName(ToolList(tools)));
      var t := AdapterRun(reply, n0, prompt, tools, max, extras);
      results != []
      && t.requests == [FirstRequest(prompt, tools, extras), FollowUpRequest(prompt, results, extras)]
      && t.requests[1].tools == ANone
      && t.result == Wrapped(reply(n0 + 1, FollowUpRequest(prompt, results, extras)))
  {
    var calls := reply(n0, FirstRequest(prompt, tools, extras)).value.toolCalls;
    ResultsNonEmpty(Processed(calls, max), ToolsByName(ToolList(tools)));
  }

  /** Never more than two rounds; the first request always carries the
      prompt and the tools as given. */
  lemma RunAtMostTwoRounds(reply: (nat, GenerateCall) -> Result<LLMResponse>, n0: nat,
                           prompt: string, tools: Option<seq<Tool>>, max: int, extras: Dict<Value>)
    ensures var t := AdapterRun(reply, n0, prompt, tools, max, extras);
      |t.requests| <= 2
      && (max >= 1 <==> |t.requests| >= 1)
      && (|t.requests| >= 1 ==> t.requests[0] == FirstRequest(prompt, tools, extras))
  {
  }

  /** Every failure after the bound check is a wrapped `RuntimeError`. */
  lemma RunErrorsWrapped(reply: (nat, GenerateCall) -> Result<LLMResponse>, n0: nat,
                         prompt: string, tools: Option<seq<Tool>>, max: int, extras: Dict<Value>)
    requires max >= 1
    ensures var t := AdapterRun(reply, n0, prompt, tools, max, extras);
      t.result.Err? ==>
        exists i | 0 <= i < |t.requests| ::
          reply(n0 + i, t.requests[i]).Err? && t.result.error == Wrap(reply(n0 + i, t.requests[i]).error)
  {
    var t := AdapterRun(reply, n0, prompt, tools, max, extras);
    if t.result.Err? {
      var first := FirstRequest(prompt, tools, extras);
      if reply(n0, first).Err? {
        assert t.requests[0] == first;
      } else {
        assert t.requests[1] == FollowUpRequest(prompt, t.requests[1].toolResults.results, extras);
        assert n0 + 1 == n0 + 1;
      }
    }
  }

  /** The results hold one entry per distinct key among the processed calls
      (`call_id`, or the tool name without one), and no other entry. */
  lemma ResultsKeys(calls: seq<ToolCall>, registered: Dict<Tool>, k: string)
    ensures HasKey(CollectResults(calls, registered), k) <==>
      exists j | 0 <= j < |calls| :: ResultKey(calls[j]) == k
  {
    var value := c => VDict(ProcessToolCall(c, registered));
    if exists j | 0 <= j < |calls| :: ResultKey(calls[j]) == k {
      AccumulateKeeps([], calls, value, k);
    }
    if HasKey(CollectResults(calls, registered), k) {
      AccumulateOnly([], calls, value, k);
    }
  }

  /** Under a key shared by several calls, the last one's record is kept. */
  lemma ResultsLastWins(calls: seq<ToolCall>, registered: Dict<Tool>, j: nat)
    requires j < |calls|
    requires forall j' | j < j' < |calls| :: ResultKey(calls[j']) != ResultKey(calls[j])
    ensures Lookup(CollectResults(calls, registered), ResultKey(calls[j])) ==
      Some(VDict(ProcessToolCall(calls[j], registered)))
  {
    AccumulateLastWins([], calls, c => VDict(ProcessToolCall(c, registered)), j);
  }

  /** Calls beyond `max_tool_calls` are not processed: a key only they carry
      has no result. */
  lemma ResultsTruncated(calls: seq<ToolCall>, max: int, registered: Dict<Tool>, k: string)
    requires max >= 1
    requires forall j | 0 <= j < |calls| && j < max :: ResultKey(calls[j]) != k
    ensures !HasKey(CollectResults(Processed(calls, max), registered), k)
  {
    var p := Processed(calls, max);
    assert forall j | 0 <= j < |p| :: p[j] == calls[j];
    ResultsKeys(p, registered, k);
  }
}
