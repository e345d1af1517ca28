/** The older bridge (src/core/bridge.py): built on a provider only, its
    loop re-offers the resolved tools with every follow-up and passes no
    extra options. Registration, lookup, resolution and the loop itself are
    those of module `Bridge`. */
module LegacyBridge {

  import opened Common
  import opened Tool
  import opened LegacyTool
  import opened ProviderInterface
  import opened AdapterBase
  import opened Bridge

  /** The request the older loop starts with: the resolved tools, nothing
      else. */
  function LegacyFirst(prompt: string, tools: seq<Tool>): GenerateCall {
    GenerateCall(AText(prompt), ATools(tools), ANone, [])
  }

  /** `tool.invoke(arguments)` of the older tool record. */
  function LegacyInvokeFn(): (Tool, Dict<Value>) -> Result<Value> {
    (t: Tool, arguments: Dict<Value>) => LegacyInvoke(t, arguments)
  }

  /** `execute`: every follow-up sends the resolved tools again. */
  function LegacyRun(p: Provider, registry: Dict<Tool>, prompt: string, tools: seq<Tool>, max: int): Trace {
    ProviderRun(Setup(p, prompt, ATools(tools), [], Stored(registry, LegacyInvokeFn()), max),
                0, LegacyFirst(prompt, tools))
  }

  /** The older loop opens with the resolved tools, sends at most
      `max_tool_calls` follow-ups, and every follow-up offers the same tools
      again, with no extra options. */
  lemma LegacyRunShape(p: Provider, registry: Dict<Tool>, prompt: string, tools: seq<Tool>, max: int, i: nat)
    requires i < |LegacyRun(p, registry, prompt, tools, max).requests|
    ensures var t := LegacyRun(p, registry, prompt, tools, max);
      |t.requests| <= 1 + (if max < 0 then 0 else max)
      && t.requests[i].tools == ATools(tools) && t.requests[i].extras == [] && t.requests[i].prompt == AText(prompt)
      && (i == 0 <==> t.requests[i].toolResults.ANone?)
  {
    var s := Setup(p, prompt, ATools(tools), [], Stored(registry, LegacyInvokeFn()), max);
    ProviderRunBound(s, 0, LegacyFirst(prompt, tools));
    if i >= 1 {
      ProviderRunFollowUps(s, 0, LegacyFirst(prompt, tools), i);
    }
  }

  class LegacyToolBridge {
    const provider: Provider
    var tools: Dict<Tool>

    constructor (provider: Provider)
      ensures this.provider == provider && tools == []
    {
      this.provider := provider;
      tools := [];
    }

    /** `register_tool(tool)`. */
    method RegisterTool(tool: Tool) returns (r: Result<()>)
      modifies this
      ensures HasKey(old(tools), tool.name) ==>
        r == Err(Exc(ValueError, DuplicateMessage(tool.name))) && tools == old(tools)
      ensures !HasKey(old(tools), tool.name) ==>
        r == Ok(()) && tools == old(tools) + [(tool.name, tool)] && GetTool(tool.name) == Ok(tool)
    {
      if HasKey(tools, tool.name) {
        return Err(Exc(ValueError, DuplicateMessage(tool.name)));
      }
      tools := Put(tools, tool.name, tool);
      r := Ok(());
    }

    /** `register_tools(tools)`: stops at the first duplicate, keeping the
        tools registered before it. */
    method RegisterTools(ts: seq<Tool>) returns (r: Result<()>)
      modifies this
      ensures tools == RegisterAll(old(tools), ts).registry
      ensures r == RegisterAll(old(tools), ts).outcome
    {
      var i := 0;
      while i < |ts|
        invariant 0 <= i <= |ts|
        invariant RegisterAll(tools, ts[i..]) == RegisterAll(old(tools), ts)
      {
        assert ts[i..][1..] == ts[i + 1..];
        r := RegisterTool(ts[i]);
        if r.Err? {
          return;
        }
        i := i + 1;
      }
      r := Ok(());
    }

    /** `get_tool(name)`. */
    function GetTool(name: string): (r: Result<Tool>)
      reads this
      ensures r == GetToolIn(tools, name)
    {
      GetToolIn(tools, name)
    }

    /** `_resolve_tools(tools)`. */
    method ResolveTools(refs: Option<seq<ToolRef>>) returns (r: Result<seq<Tool>>)
      ensures r == Resolve(tools, refs)
    {
      r := ResolveIn(tools, refs);
    }

    /** `await execute(prompt, tools, max_tool_calls)`: resolve the tools,
        then run the loop over the provider; `sent` are the requests the
        model received. */
    method Execute(prompt: string, refs: Option<seq<ToolRef>>, max: int)
      returns (r: Result<LLMResponse>, sent: seq<GenerateCall>)
      ensures Resolve(tools, refs).Err? ==> r == Err(Resolve(tools, refs).error) && sent == []
      ensures Resolve(tools, refs).Ok? ==>
        r == LegacyRun(provider, tools, prompt, Resolve(tools, refs).value, max).result
        && sent == LegacyRun(provider, tools, prompt, Resolve(tools, refs).value, max).requests
    {
      var resolved := ResolveTools(refs);
      if resolved.Err? {
        return Err(resolved.error), [];
      }
      r, sent := RunProvider(provider, prompt, ATools(resolved.value), [], Stored(tools, LegacyInvokeFn()), max,
                             LegacyFirst(prompt, resolved.value));
    }

    /** `execute_sync(...)`: `execute` run to completion. */
    method ExecuteSync(prompt: string, refs: Option<seq<ToolRef>>, max: int)
      returns (r: Result<LLMResponse>, sent: seq<GenerateCall>)
      ensures Resolve(tools, refs).Err? ==> r == Err(Resolve(tools, refs).error) && sent == []
      ensures Resolve(tools, refs).Ok? ==>
        r == LegacyRun(provider, tools, prompt, Resolve(tools, refs).value, max).result
        && sent == LegacyRun(provider, tools, prompt, Resolve(tools, refs).value, max).requests
    {
      r, sent := Execute(prompt, refs, max);
    }
  }
}
