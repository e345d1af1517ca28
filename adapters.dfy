/** The three concrete adapters (src/llm_toolbridge/adapters/openai.py,
    azure_openai.py and gemini.py). They differ only in the provider class
    they accept and in their capabilities; each prepares a request
    dictionary, pops the three fixed keys from it in place when executing,
    and calls the provider's synchronous generation with the rest.

    `execute_with_tools` of the adapter base (src/core/adapter.py) runs here
    over these three steps, and is proved to follow `AdapterBase.AdapterRun`. */
module Adapters {

  import opened Common
  import opened Tool
  import opened ProviderInterface
  import opened AdapterBase

  datatype AdapterKind = OpenAIAdapterKind | AzureOpenAIAdapterKind | GeminiAdapterKind

  /** The provider class each adapter insists on. */
  function RequiredProvider(kind: AdapterKind): ProviderKind {
    match kind
    case OpenAIAdapterKind => OpenAIProviderKind
    case AzureOpenAIAdapterKind => AzureOpenAIProviderKind
    case GeminiAdapterKind => GeminiProviderKind
  }

  /** The `TypeError` message of each constructor. */
  function WrongProviderMessage(kind: AdapterKind): string {
    match kind
    case OpenAIAdapterKind => "OpenAIAdapter requires an OpenAIProvider instance"
    case AzureOpenAIAdapterKind => "AzureOpenAIAdapter requires an AzureOpenAIProvider instance"
    case GeminiAdapterKind => "GeminiAdapter requires a GeminiProvider instance"
  }

  /** `get_capabilities()`: tool calling, several tools and vision, no
      streaming; the token limit differs by adapter. */
  function Capabilities(kind: AdapterKind): (c: ProviderCapabilities)
    ensures c.supportsToolCalling && c.supportsMultipleTools && c.supportsVision
    ensures !c.supportsStreaming
    ensures kind == OpenAIAdapterKind ==> c.maxTokensLimit == Some(8192)
    ensures kind == AzureOpenAIAdapterKind ==> c.maxTokensLimit == Some(4096)
    ensures kind == GeminiAdapterKind ==> c.maxTokensLimit == Some(32768)
  {
    var limit := match kind
      case OpenAIAdapterKind => 8192
      case AzureOpenAIAdapterKind => 4096
      case GeminiAdapterKind => 32768;
    ProviderCapabilities(true, true, false, true, Some(limit))
  }

  // ---------------------------------------------------------------------------
  // The request dictionary
  // ---------------------------------------------------------------------------

  /** Extra options never use the names of `prepare_request`'s own
      parameters (Python refuses a keyword given twice). */
  predicate NoReservedKeys(extras: Dict<Value>) {
    !HasKey(extras, "prompt") && !HasKey(extras, "tools") && !HasKey(extras, "tool_results")
  }

  /** `{"prompt": ..., "tools": ..., "tool_results": ...}`. */
  function FixedEntries(prompt: Arg, tools: Arg, results: Arg): (r: Dict<Arg>)
    ensures Keys(r) == ["prompt", "tools", "tool_results"]
  {
    var r := [("prompt", prompt), ("tools", tools), ("tool_results", results)];
    assert |r[0].0| == 6 && |r[1].0| == 5 && |r[2].0| == 12;
    r
  }

  /** The fixed entries followed by every extra option, in order. */
  function Prepared(prompt: Arg, tools: Arg, results: Arg, extras: Dict<Value>): (r: Dict<Arg>)
    requires NoReservedKeys(extras)
    ensures r == FixedEntries(prompt, tools, results) + ExtraArgs(extras)
  {
    var fixed := FixedEntries(prompt, tools, results);
    var rest := ExtraArgs(extras);
    var r := fixed + rest;
    assert UniqueKeys(r) by {
      forall i, j | 0 <= i < j < |r| ensures r[i].0 != r[j].0 {
        if j >= 3 {
          assert r[j] == rest[j - 3];
          assert r[j].0 == extras[j - 3].0;
          if i < 3 {
            assert r[i].0 == Keys(fixed)[i];
          } else {
            assert r[i] == rest[i - 3];
          }
        } else {
          assert Keys(fixed)[i] == r[i].0 && Keys(fixed)[j] == r[j].0;
        }
      }
    }
    r
  }

  /** What `execute_request` forwards from a request dictionary:
      `pop("prompt")` (a `KeyError` when absent), `pop("tools", None)`,
      `pop("tool_results", None)`, and the remaining entries. */
  function Unpack(entries: Dict<Arg>): (r: Result<GenerateCall>)
    ensures r.Err? <==> !HasKey(entries, "prompt")
  {
    match Lookup(entries, "prompt")
    case None => Err(Exc(KeyError, "prompt"))
    case Some(p) =>
      var afterPrompt := Remove(entries, "prompt");
      var afterTools := Remove(afterPrompt, "tools");
      Ok(GenerateCall(p, GetOr(afterPrompt, "tools", ANone), GetOr(afterTools, "tool_results", ANone),
                      Remove(afterTools, "tool_results")))
  }

  /** Preparing and then executing forwards exactly what was prepared. */
  lemma UnpackPrepared(prompt: Arg, tools: Arg, results: Arg, extras: Dict<Value>)
    requires NoReservedKeys(extras)
    ensures Unpack(Prepared(prompt, tools, results, extras)) ==
      Ok(GenerateCall(prompt, tools, results, ExtraArgs(extras)))
  {
    var e := Prepared(prompt, tools, results, extras);
    LookupAt(e, 0);
    RemoveHead(e);
    var e1: Dict<Arg> := e[1..];
    LookupAt(e1, 0);
    RemoveHead(e1);
    var e2: Dict<Arg> := e1[1..];
    LookupAt(e2, 0);
    RemoveHead(e2);
    assert e2[1..] == ExtraArgs(extras);
  }

  /** While the extra options are copied in order, the next one is never a
      key already present. */
  lemma ExtraKeyIsNew(fixed: Dict<Arg>, extras: Dict<Value>, entries: seq<(string, Arg)>, i: nat)
    requires NoReservedKeys(extras) && i < |extras|
    requires Keys(fixed) == ["prompt", "tools", "tool_results"]
    requires |entries| == 3 + i && entries[..3] == fixed
    requires forall j | 0 <= j < i :: entries[3 + j] == (extras[j].0, AValue(extras[j].1))
    ensures !HasKey(entries, extras[i].0)
  {
    var key := extras[i].0;
    forall m | 0 <= m < |entries| ensures entries[m].0 != key {
      if m < 3 {
        assert entries[m] == fixed[m] && Keys(fixed)[m] == fixed[m].0;
        assert entries[m].0 in {"prompt", "tools", "tool_results"};
        assert !HasKey(extras, entries[m].0);
      } else {
        assert entries[m].0 == extras[m - 3].0;
      }
    }
  }

  /** A request dictionary handed from `prepare_request` to
      `execute_request`, which changes it in place. */
  class Request {
    var entries: Dict<Arg>

    constructor (entries: Dict<Arg>)
      ensures this.entries == entries
    {
      this.entries := entries;
    }
  }

  /** An adapter bound to a provider of the class it requires. */
  class ProviderAdapter {
    const kind: AdapterKind
    const provider: Provider

    constructor (kind: AdapterKind, provider: Provider)
      requires provider.kind == RequiredProvider(kind)
      ensures this.kind == kind && this.provider == provider
    {
      this.kind := kind;
      this.provider := provider;
    }

    /** `XAdapter(provider)`: a `TypeError` unless the provider is of the
        class the adapter requires. */
    static method Create(kind: AdapterKind, provider: Provider) returns (r: Result<ProviderAdapter>)
      ensures r.Ok? <==> provider.kind == RequiredProvider(kind)
      ensures r.Err? ==> r.error == Exc(TypeError, WrongProviderMessage(kind))
      ensures r.Ok? ==> fresh(r.value) && r.value.kind == kind && r.value.provider == provider
    {
      if provider.kind != RequiredProvider(kind) {
        return Err(Exc(TypeError, WrongProviderMessage(kind)));
      }
      var a := new ProviderAdapter(kind, provider);
      r := Ok(a);
    }

    function GetCapabilities(): (c: ProviderCapabilities)
      ensures c == Capabilities(kind)
    {
      Capabilities(kind)
    }

    /** `prepare_request(prompt, tools, tool_results, **extras)`: the fixed
        entries, then `request[key] = value` for every extra option. */
    method PrepareRequest(prompt: string, tools: Option<seq<Tool>>, results: Option<Dict<Value>>,
                          extras: Dict<Value>) returns (req: Request)
      requires NoReservedKeys(extras)
      ensures fresh(req)
      ensures req.entries == Prepared(AText(prompt), ToolsArg(tools), ResultsArg(results), extras)
    {
      var fixed := FixedEntries(AText(prompt), ToolsArg(tools), ResultsArg(results));
      var entries := fixed;
      var i := 0;
      while i < |extras|
        invariant 0 <= i <= |extras|
        invariant |entries| == 3 + i && entries[..3] == fixed
        invariant forall j | 0 <= j < i :: entries[3 + j] == (extras[j].0, AValue(extras[j].1))
      {
        var (key, value) := extras[i];
        ExtraKeyIsNew(fixed, extras, entries, i);
        entries := Put(entries, key, AValue(value));
        i := i + 1;
      }
      assert entries == fixed + ExtraArgs(extras);
      req := new Request(entries);
    }

    /** `execute_request(request)` as the `n`-th request of a run: pop the
        three fixed keys from the request itself and pass everything to
        `_generate_sync`. */
    method ExecuteRequest(req: Request, n: nat) returns (r: Result<LLMResponse>)
      modifies req
      ensures Unpack(old(req.entries)).Err? ==> r == Err(Exc(KeyError, "prompt")) && req.entries == old(req.entries)
      ensures Unpack(old(req.entries)).Ok? ==>
        req.entries == Unpack(old(req.entries)).value.extras
        && r == provider.model(n, Unpack(old(req.entries)).value)
    {
      var prompt := Lookup(req.entries, "prompt");
      if prompt.None? {
        return Err(Exc(KeyError, "prompt"));
      }
      req.entries := Remove(req.entries, "prompt");
      var tools := GetOr(req.entries, "tools", ANone);
      req.entries := Remove(req.entries, "tools");
      var results := GetOr(req.entries, "tool_results", ANone);
      req.entries := Remove(req.entries, "tool_results");
      r := provider.model(n, GenerateCall(prompt.value, tools, results, req.entries));
    }

    /** `parse_response(response)`: the provider already returns the common
        response record. */
    function ParseResponse(response: LLMResponse): (r: LLMResponse)
      ensures r == response
    {
      response
    }

    /** One round, the `n`-th request of a run: prepare a request and
        execute it. The model receives exactly the prompt, tools, results
        and extra options given. */
    method Round(prompt: string, tools: Option<seq<Tool>>, results: Option<Dict<Value>>, extras: Dict<Value>,
                 n: nat) returns (r: Result<LLMResponse>)
      requires NoReservedKeys(extras)
      ensures r == provider.model(n, GenerateCall(AText(prompt), ToolsArg(tools), ResultsArg(results), ExtraArgs(extras)))
    {
      var req := PrepareRequest(prompt, tools, results, extras);
      UnpackPrepared(AText(prompt), ToolsArg(tools), ResultsArg(results), extras);
      r := ExecuteRequest(req, n);
    }

    /** `execute_with_tools(prompt, tools, max_tool_calls, **extras)`; `sent`
        are the requests the model received, in order. */
    method ExecuteWithTools(prompt: string, tools: Option<seq<Tool>>, max: int, extras: Dict<Value>)
      returns (r: Result<LLMResponse>, sent: seq<GenerateCall>)
      requires NoReservedKeys(extras)
      ensures r == AdapterRun(provider.model, 0, prompt, tools, max, extras).result
      ensures sent == AdapterRun(provider.model, 0, prompt, tools, max, extras).requests
    {
      if max < 1 {
        return Err(Exc(ValueError, "max_tool_calls must be at least 1")), [];
      }
      var registered := ToolsByName(ToolList(tools));

      var response := Round(prompt, tools, None, extras, 0);
      sent := [FirstRequest(prompt, tools, extras)];
      if response.Err? {
        return Err(Wrap(response.error)), sent;
      }
      var llmResponse := ParseResponse(response.value);

      if llmResponse.toolCalls != [] {
        var results := ProcessToolCalls(Processed(llmResponse.toolCalls, max), registered);
        if results != [] {
          response := Round(prompt, None, Some(results), extras, 1);
          sent := sent + [FollowUpRequest(prompt, results, extras)];
          if response.Err? {
            return Err(Wrap(response.error)), sent;
          }
          llmResponse := ParseResponse(response.value);
        }
      }
      r := Ok(llmResponse);
    }
  }

  /** The loop of `execute_with_tools`: process each call and store its
      record under `call_id or tool_name`. */
  method ProcessToolCalls(calls: seq<ToolCall>, registered: Dict<Tool>) returns (results: Dict<Value>)
    ensures results == CollectResults(calls, registered)
  {
    results := [];
    var i := 0;
    while i < |calls|
      invariant 0 <= i <= |calls|
      invariant results == CollectResults(calls[..i], registered)
    {
      assert calls[..i + 1][..i] == calls[..i];
      var record := ProcessToolCall(calls[i], registered);
      results := Put(results, ResultKey(calls[i]), VDict(record));
      i := i + 1;
    }
    assert calls[..|calls|] == calls;
  }

  /** The `tool_results` argument as passed on: `None` or the dictionary. */
  function ResultsArg(results: Option<Dict<Value>>): (a: Arg)
    ensures results.None? <==> a == ANone
  {
    match results
    case None => ANone
    case Some(d) => AResults(d)
  }
}
