/** The tool bridge (src/llm_toolbridge/core/bridge.py): a registry of tools,
    the resolution of a mixed list of tools and tool names, and execution
    either by one call to an adapter or by its own loop over a provider.

    The registry and resolution rules, and the provider loop as a function
    of the model's replies, are shared with the older bridge (module
    `LegacyBridge`). */
module Bridge {

  import opened Common
  import opened Tool
  import opened ProviderInterface
  import opened AdapterBase
  import opened Adapters

  // ---------------------------------------------------------------------------
  // The registry
  // ---------------------------------------------------------------------------

  function DuplicateMessage(name: string): string {
    "Tool with name '" + name + "' is already registered"
  }

  function MissingMessage(name: string): string {
    "No tool with name '" + name + "' is registered"
  }

  /** `get_tool(name)` on a registry. */
  function GetToolIn(registry: Dict<Tool>, name: string): (r: Result<Tool>)
    ensures r.Ok? <==> HasKey(registry, name)
    ensures r.Ok? ==> Lookup(registry, name) == Some(r.value)
    ensures r.Err? ==> r.error == Exc(KeyError, MissingMessage(name))
  {
    match Lookup(registry, name)
    case None => Err(Exc(KeyError, MissingMessage(name)))
    case Some(t) => Ok(t)
  }

  /** The registry after `register_tools(tools)`, and whether it raised. */
  datatype Registration = Registration(registry: Dict<Tool>, outcome: Result<()>)

  /** `register_tool` for each tool in turn, stopping at the first name that
      is already registered. */
  function RegisterAll(registry: Dict<Tool>, tools: seq<Tool>): Registration
    decreases |tools|
  {
    if tools == [] then Registration(registry, Ok(()))
    else if HasKey(registry, tools[0].name) then
      Registration(registry, Err(Exc(ValueError, DuplicateMessage(tools[0].name))))
    else RegisterAll(Put(registry, tools[0].name, tools[0]), tools[1..])
  }

  /** The entries `register_tool` appends for these tools. */
  function Entries(tools: seq<Tool>): (e: seq<(string, Tool)>)
    ensures |e| == |tools|
    ensures forall i | 0 <= i < |tools| :: e[i] == (tools[i].name, tools[i])
  {
    seq(|tools|, i requires 0 <= i < |tools| => (tools[i].name, tools[i]))
  }

  /** `register_tools` stopped after registering the first `k` tools. */
  ghost predicate StoppedAt(registry: Dict<Tool>, tools: seq<Tool>, g: Registration, k: nat) {
    k <= |tools|
    && g.registry == registry + Entries(tools[..k])
    && (k == |tools| <==> g.outcome.Ok?)
    && (k < |tools| ==>
         HasKey(g.registry, tools[k].name)
         && g.outcome == Err(Exc(ValueError, DuplicateMessage(tools[k].name))))
  }

  /** How many tools `register_tools` registers before it stops. */
  function RegisteredCount(registry: Dict<Tool>, tools: seq<Tool>): (k: nat)
    ensures k <= |tools|
    decreases |tools|
  {
    if tools == [] || HasKey(registry, tools[0].name) then 0
    else 1 + RegisteredCount(Put(registry, tools[0].name, tools[0]), tools[1..])
  }

  /** Tools are registered one at a time: a duplicate raises, and every tool
      before it stays registered, in order. */
  lemma RegisterAllStops(registry: Dict<Tool>, tools: seq<Tool>)
    ensures StoppedAt(registry, tools, RegisterAll(registry, tools), RegisteredCount(registry, tools))
  {
    RegisterAllRegistry(registry, tools);
    RegisterAllOutcome(registry, tools);
  }

  lemma {:induction false} RegisterAllRegistry(registry: Dict<Tool>, tools: seq<Tool>)
    ensures RegisterAll(registry, tools).registry == registry + Entries(tools[..RegisteredCount(registry, tools)])
    decreases |tools|
  {
    if tools == [] || HasKey(registry, tools[0].name) {
      assert Entries(tools[..0]) == [];
    } else {
      var next := Put(registry, tools[0].name, tools[0]);
      var k := RegisteredCount(next, tools[1..]);
      RegisterAllRegistry(next, tools[1..]);
      EntriesCons(tools, k);
      AppendAssoc(registry, [(tools[0].name, tools[0])], Entries(tools[1..][..k]));
    }
  }

  lemma {:induction false} RegisterAllOutcome(registry: Dict<Tool>, tools: seq<Tool>)
    ensures RegisteredCount(registry, tools) == |tools| <==> RegisterAll(registry, tools).outcome.Ok?
    ensures RegisteredCount(registry, tools) < |tools| ==>
      HasKey(RegisterAll(registry, tools).registry, tools[RegisteredCount(registry, tools)].name)
      && RegisterAll(registry, tools).outcome
         == Err(Exc(ValueError, DuplicateMessage(tools[RegisteredCount(registry, tools)].name)))
    decreases |tools|
  {
    if tools != [] && !HasKey(registry, tools[0].name) {
      var next := Put(registry, tools[0].name, tools[0]);
      RegisterAllOutcome(next, tools[1..]);
      var k := RegisteredCount(next, tools[1..]);
      if k < |tools| - 1 {
        assert tools[1..][k] == tools[k + 1];
      }
    }
  }

  lemma EntriesCons(tools: seq<Tool>, k: nat)
    requires k < |tools|
    ensures Entries(tools[..k + 1]) == [(tools[0].name, tools[0])] + Entries(tools[1..][..k])
  {
    var l := Entries(tools[..k + 1]);
    var r := [(tools[0].name, tools[0])] + Entries(tools[1..][..k]);
    assert |l| == |r|;
    forall i | 0 <= i < |l| ensures l[i] == r[i] {
      if i > 0 { assert tools[1..][..k][i - 1] == tools[i]; }
    }
  }

  /** After a registration without error, every tool is found under its own
      name. */
  lemma RegisterAllFinds(registry: Dict<Tool>, tools: seq<Tool>, i: nat)
    requires i < |tools|
    requires RegisterAll(registry, tools).outcome.Ok?
    ensures GetToolIn(RegisterAll(registry, tools).registry, tools[i].name) == Ok(tools[i])
  {
    var g := RegisterAll(registry, tools);
    RegisterAllStops(registry, tools);
    assert tools[..|tools|] == tools;
    assert g.registry[|registry| + i] == (tools[i].name, tools[i]);
    LookupAt(g.registry, |registry| + i);
  }

  /** Registration never changes or removes an entry already present. */
  lemma {:induction false} RegisterAllKeeps(registry: Dict<Tool>, tools: seq<Tool>, name: string)
    requires HasKey(registry, name)
    ensures Lookup(RegisterAll(registry, tools).registry, name) == Lookup(registry, name)
    decreases |tools|
  {
    if tools != [] && !HasKey(registry, tools[0].name) {
      RegisterAllKeeps(Put(registry, tools[0].name, tools[0]), tools[1..], name);
    }
  }

  // ---------------------------------------------------------------------------
  // Resolution
  // ---------------------------------------------------------------------------

  /** An element of the `tools` argument: a tool, a tool name, or a value of
      any other Python type. */
  datatype ToolRef = ToolObject(tool: Tool) | ToolName(name: string) | Unsupported(typeName: string)

  function ResolveOne(registry: Dict<Tool>, ref: ToolRef): (r: Result<Tool>)
    ensures ref.ToolObject? ==> r == Ok(ref.tool)
    ensures ref.ToolName? ==> r == GetToolIn(registry, ref.name)
    ensures ref.Unsupported? ==> r == Err(Exc(TypeError, "Expected Tool or str, got " + ref.typeName))
  {
    match ref
    case ToolObject(t) => Ok(t)
    case ToolName(n) => GetToolIn(registry, n)
    case Unsupported(typeName) => Err(Exc(TypeError, "Expected Tool or str, got " + typeName))
  }

  /** Resolving a list element by element, stopping at the first failure. */
  function ResolveList(registry: Dict<Tool>, refs: seq<ToolRef>): Result<seq<Tool>>
    decreases |refs|
  {
    if refs == [] then Ok([])
    else
      match ResolveOne(registry, refs[0])
      case Err(e) => Err(e)
      case Ok(t) =>
        match ResolveList(registry, refs[1..])
        case Err(e) => Err(e)
        case Ok(rest) => Ok([t] + rest)
  }

  /** The tools resolved so far, put in front of what the rest resolves to. */
  function Prepend(done: seq<Tool>, r: Result<seq<Tool>>): Result<seq<Tool>> {
    match r
    case Err(e) => Err(e)
    case Ok(rest) => Ok(done + rest)
  }

  /** Resolving the `i`-th element either fails with its error or moves it
      to the resolved part. */
  lemma ResolveListStep(registry: Dict<Tool>, done: seq<Tool>, refs: seq<ToolRef>, i: nat)
    requires i < |refs|
    ensures ResolveOne(registry, refs[i]).Err? ==>
      Prepend(done, ResolveList(registry, refs[i..])) == Err(ResolveOne(registry, refs[i]).error)
    ensures ResolveOne(registry, refs[i]).Ok? ==>
      Prepend(done, ResolveList(registry, refs[i..])) ==
      Prepend(done + [ResolveOne(registry, refs[i]).value], ResolveList(registry, refs[i + 1..]))
  {
    assert refs[i..][0] == refs[i] && refs[i..][1..] == refs[i + 1..];
    var r := ResolveList(registry, refs[i + 1..]);
    if ResolveOne(registry, refs[i]).Ok? && r.Ok? {
      var t := ResolveOne(registry, refs[i]).value;
      assert done + ([t] + r.value) == (done + [t]) + r.value;
    }
  }

  /** `_resolve_tools(tools)`: every registered tool in registration order
      when no list is given. */
  function Resolve(registry: Dict<Tool>, refs: Option<seq<ToolRef>>): (r: Result<seq<Tool>>)
    ensures refs.None? ==> r == Ok(Values(registry))
  {
    match refs
    case None => Ok(Values(registry))
    case Some(rs) => ResolveList(registry, rs)
  }

  /** A list resolves exactly when every element does; the result keeps the
      length and order, tools passed through and names looked up; otherwise
      the error is that of the first element that fails. */
  lemma {:induction false} ResolveListSpec(registry: Dict<Tool>, refs: seq<ToolRef>)
    ensures var r := ResolveList(registry, refs);
      (r.Ok? <==> forall i | 0 <= i < |refs| :: ResolveOne(registry, refs[i]).Ok?)
      && (r.Ok? ==>
           |r.value| == |refs| && forall i | 0 <= i < |refs| :: r.value[i] == ResolveOne(registry, refs[i]).value)
      && (r.Err? ==> exists i | 0 <= i < |refs| ::
           ResolveOne(registry, refs[i]) == Err(r.error)
           && forall j | 0 <= j < i :: ResolveOne(registry, refs[j]).Ok?)
    decreases |refs|
  {
    if refs != [] {
      var tail := refs[1..];
      ResolveListSpec(registry, tail);
      assert forall i | 0 < i < |refs| :: refs[i] == tail[i - 1];
      var r := ResolveList(registry, refs);
      if ResolveOne(registry, refs[0]).Ok? && ResolveList(registry, tail).Err? {
        var i :| 0 <= i < |tail| && ResolveOne(registry, tail[i]) == Err(r.error)
          && forall j | 0 <= j < i :: ResolveOne(registry, tail[j]).Ok?;
        assert ResolveOne(registry, refs[i + 1]) == Err(r.error);
        assert forall j | 0 <= j < i + 1 :: ResolveOne(registry, refs[j]).Ok? by {
          forall j | 0 <= j < i + 1 ensures ResolveOne(registry, refs[j]).Ok? {
            if j > 0 { assert refs[j] == tail[j - 1]; }
          }
        }
      }
      if r.Ok? {
        forall i | 0 <= i < |refs| ensures r.value[i] == ResolveOne(registry, refs[i]).value {
          if i > 0 { assert refs[i] == tail[i - 1]; }
        }
      }
    }
  }

  /** The loop of `_resolve_tools(tools)` over a registry: all registered
      tools for `None`, otherwise each element in order, stopping at the
      first that does not resolve. */
  method ResolveIn(registry: Dict<Tool>, refs: Option<seq<ToolRef>>) returns (r: Result<seq<Tool>>)
    ensures r == Resolve(registry, refs)
  {
    if refs.None? {
      return Ok(Values(registry));
    }
    var rs := refs.value;
    var resolved: seq<Tool> := [];
    var i := 0;
    assert rs[0..] == rs;
    assert Prepend([], ResolveList(registry, rs)) == ResolveList(registry, rs) by {
      if ResolveList(registry, rs).Ok? {
        assert [] + ResolveList(registry, rs).value == ResolveList(registry, rs).value;
      }
    }
    while i < |rs|
      invariant 0 <= i <= |rs|
      invariant ResolveList(registry, rs) == Prepend(resolved, ResolveList(registry, rs[i..]))
    {
      ResolveListStep(registry, resolved, rs, i);
      match rs[i] {
        case ToolObject(t) =>
          resolved := resolved + [t];
        case ToolName(n) =>
          var found := GetToolIn(registry, n);
          if found.Err? {
            return Err(found.error);
          }
          resolved := resolved + [found.value];
        case Unsupported(typeName) =>
          return Err(Exc(TypeError, "Expected Tool or str, got " + typeName));
      }
      i := i + 1;
    }
    assert resolved + [] == resolved;
    assert rs[|rs|..] == [];
    r := Ok(resolved);
  }

  // ---------------------------------------------------------------------------
  // The provider loop, as a function of the model's replies
  // ---------------------------------------------------------------------------

  /** What the loop stores for one tool call: the raw result of the tool, or
      an error record when looking it up or running it raises. */
  function StoredResult(registry: Dict<Tool>, invoke: (Tool, Dict<Value>) -> Result<Value>, call: ToolCall): (v: Value)
    ensures GetToolIn(registry, call.toolName).Err? ==>
      v == VDict(ErrorRecord(Str(Exc(KeyError, MissingMessage(call.toolName)))))
    ensures GetToolIn(registry, call.toolName).Ok? ==>
      var outcome := invoke(GetToolIn(registry, call.toolName).value, call.arguments);
      v == (if outcome.Ok? then outcome.value else VDict(ErrorRecord(Str(outcome.error))))
  {
    match GetToolIn(registry, call.toolName)
    case Err(e) => VDict(ErrorRecord(Str(e)))
    case Ok(t) =>
      match invoke(t, call.arguments)
      case Ok(v) => v
      case Err(e) => VDict(ErrorRecord(Str(e)))
  }

  /** The fixed parts of the missing-tool message hold no character `repr`
      escapes inside double quotes. */
  lemma MissingPartsPlain()
    ensures ReprBody("No tool with name '", '"') == "No tool with name '"
    ensures ReprBody("' is registered", '"') == "' is registered"
  {
    var pre, post := "No tool with name '", "' is registered";
    assert forall i :: 0 <= i < |pre| ==> ReprPlain(pre[i], '"');
    assert forall i :: 0 <= i < |post| ==> ReprPlain(post[i], '"');
    ReprBodyPlain(pre, '"');
    ReprBodyPlain(post, '"');
  }

  /** `repr` escapes the missing-tool message around the name only. */
  lemma MissingMessageRepr(name: string)
    requires '"' !in name
    ensures QuoteRepr(MissingMessage(name)) == "\"No tool with name '" + ReprBody(name, '"') + "' is registered\""
  {
    var pre, post := "No tool with name '", "' is registered";
    var m := MissingMessage(name);
    assert m == pre + name + post;
    assert ReprQuote(m) == '"' by {
      assert m[18] == '\'';
      assert '"' !in pre && '"' !in post;
    }
    assert QuoteRepr(m) == "\"" + ReprBody(m, '"') + "\"";
    assert ReprBody(m, '"') == MissingMessage(ReprBody(name, '"')) by {
      ReprBodyAppend(pre + name, post, '"');
      ReprBodyAppend(pre, name, '"');
      MissingPartsPlain();
    }
    QuotedMissing(ReprBody(name, '"'));
  }

  lemma QuotedMissing(x: string)
    ensures "\"" + MissingMessage(x) + "\"" == "\"No tool with name '" + x + "' is registered\""
  {
    var pre, post := "No tool with name '", "' is registered";
    assert "\"" + (pre + x + post) + "\"" == ("\"" + pre) + x + (post + "\"");
    assert "\"" + pre == "\"No tool with name '" && post + "\"" == "' is registered\"";
  }

  /** The error a missing tool leaves: `str` of the `KeyError` is the
      message in double quotes (it holds a single quote), with the tool
      name escaped as `repr` escapes it. */
  lemma MissingToolRecord(registry: Dict<Tool>, invoke: (Tool, Dict<Value>) -> Result<Value>, call: ToolCall)
    requires !HasKey(registry, call.toolName)
    requires '"' !in call.toolName
    ensures StoredResult(registry, invoke, call) ==
      VDict(ErrorRecord("\"No tool with name '" + ReprBody(call.toolName, '"') + "' is registered\""))
  {
    MissingMessageRepr(call.toolName);
  }

  /** The value stored for each call, given the registry and the tool
      record's `invoke`. */
  function Stored(registry: Dict<Tool>, invoke: (Tool, Dict<Value>) -> Result<Value>): ToolCall -> Value {
    (c: ToolCall) => StoredResult(registry, invoke, c)
  }

  /** What one run of the loop is made of: the provider, the prompt, the
      tools argument and extra options of every follow-up, what is stored for
      each tool call, and the cap on follow-ups. */
  datatype Setup = Setup(provider: Provider, prompt: string, followTools: Arg, extras: Dict<Arg>,
                         value: ToolCall -> Value, max: int)

  /** A follow-up request: the prompt, the follow-up tools, every result so
      far and the extra options. */
  function FollowUp(s: Setup, stored: Dict<Value>): (c: GenerateCall)
    ensures c.prompt == AText(s.prompt) && c.tools == s.followTools && c.extras == s.extras
    ensures c.toolResults == AResults(stored)
  {
    GenerateCall(AText(s.prompt), s.followTools, AResults(stored), s.extras)
  }

  /** The follow-up rounds of the loop: while the latest response asks for
      tools and fewer than `max` follow-ups were sent, run one more round. */
  function FollowUps(s: Setup, n: nat, response: LLMResponse, results: Dict<Value>, count: nat): Trace
    decreases s.max - count, 1
  {
    if response.toolCalls != [] && count < s.max then Round(s, n, response, results, count)
    else Trace(Ok(response), [])
  }

  /** One round, as the `n`-th request of the run: store every call's result
      (later keys overwrite earlier ones), ask again with all results so far,
      and go on from the reply unless it is an error. */
  function Round(s: Setup, n: nat, response: LLMResponse, results: Dict<Value>, count: nat): Trace
    requires count < s.max
    decreases s.max - count, 0
  {
    var stored := Accumulate(results, response.toolCalls, s.value);
    var reply := Generate(s.provider, n, FollowUp(s, stored));
    if reply.Err? then Trace(Err(reply.error), [FollowUp(s, stored)])
    else Then([FollowUp(s, stored)], FollowUps(s, n + 1, reply.value, stored, count + 1))
  }

  /** The requests `done`, then the trace `t`. */
  function Then(done: seq<GenerateCall>, t: Trace): (r: Trace)
    ensures r.result == t.result && |r.requests| == |done| + |t.requests|
  {
    Trace(t.result, done + t.requests)
  }

  lemma AppendAssoc<T>(a: seq<T>, b: seq<T>, c: seq<T>)
    ensures (a + b) + c == a + (b + c)
  {
  }

  lemma ThenNothing(t: Trace)
    ensures Then([], t) == t
  {
    assert [] + t.requests == t.requests;
  }

  lemma ThenDone(done: seq<GenerateCall>, result: Result<LLMResponse>)
    ensures Then(done, Trace(result, [])) == Trace(result, done)
  {
    assert done + [] == done;
  }

  lemma ThenThen(a: seq<GenerateCall>, b: seq<GenerateCall>, t: Trace)
    ensures Then(a, Then(b, t)) == Then(a + b, t)
  {
    AppendAssoc(a, b, t.requests);
  }

  /** The loop stops on a response without tool calls, or at the cap. */
  lemma FollowUpsStop(s: Setup, n: nat, response: LLMResponse, results: Dict<Value>, count: nat)
    requires response.toolCalls == [] || count >= s.max
    ensures FollowUps(s, n, response, results, count) == Trace(Ok(response), [])
  {
  }

  /** The whole loop: the first request, then the follow-ups. */
  function ProviderRun(s: Setup, n0: nat, first: GenerateCall): Trace {
    var reply := Generate(s.provider, n0, first);
    if reply.Err? then Trace(Err(reply.error), [first])
    else Then([first], FollowUps(s, n0 + 1, reply.value, [], 0))
  }

  /** At most `max - count` follow-ups are sent. */
  lemma {:induction false} FollowUpsBound(s: Setup, n: nat, response: LLMResponse, results: Dict<Value>, count: nat)
    ensures count + |FollowUps(s, n, response, results, count).requests| <= (if count < s.max then s.max else count)
    decreases s.max - count
  {
    if response.toolCalls != [] && count < s.max {
      var stored := Accumulate(results, response.toolCalls, s.value);
      var reply := Generate(s.provider, n, FollowUp(s, stored));
      if reply.Ok? {
        FollowUpsBound(s, n + 1, reply.value, stored, count + 1);
      }
    }
  }

  /** The loop ends on a response without tool calls, or when the cap is
      reached. */
  lemma {:induction false} FollowUpsFinal(s: Setup, n: nat, response: LLMResponse, results: Dict<Value>, count: nat)
    ensures var t := FollowUps(s, n, response, results, count);
      t.result.Ok? ==> t.result.value.toolCalls == [] || count + |t.requests| >= s.max
    decreases s.max - count
  {
    if response.toolCalls != [] && count < s.max {
      var stored := Accumulate(results, response.toolCalls, s.value);
      var reply := Generate(s.provider, n, FollowUp(s, stored));
      if reply.Ok? {
        FollowUpsFinal(s, n + 1, reply.value, stored, count + 1);
      }
    }
  }

  /** Every follow-up carries the prompt, the same tools argument, the same
      extra options, and a result dictionary. */
  lemma {:induction false} FollowUpsFields(s: Setup, n: nat, response: LLMResponse, results: Dict<Value>, count: nat)
    ensures forall c | c in FollowUps(s, n, response, results, count).requests ::
      c.prompt == AText(s.prompt) && c.tools == s.followTools && c.extras == s.extras && c.toolResults.AResults?
    decreases s.max - count
  {
    if response.toolCalls != [] && count < s.max {
      var stored := Accumulate(results, response.toolCalls, s.value);
      var reply := Generate(s.provider, n, FollowUp(s, stored));
      if reply.Ok? {
        var rest := FollowUps(s, n + 1, reply.value, stored, count + 1);
        FollowUpsFields(s, n + 1, reply.value, stored, count + 1);
        assert FollowUps(s, n, response, results, count).requests == [FollowUp(s, stored)] + rest.requests;
      }
    }
  }

  /** The result dictionary sent with a request (empty when none is sent). */
  function SentResults(c: GenerateCall): Dict<Value> {
    if c.toolResults.AResults? then c.toolResults.results else []
  }

  /** Every key of `a` is a key of `b`. */
  ghost predicate KeysKept(a: Dict<Value>, b: Dict<Value>) {
    forall k | HasKey(a, k) :: HasKey(b, k)
  }

  /** The results are cumulative: each follow-up holds every key of the
      results before it. */
  lemma {:induction false} FollowUpsCumulative(s: Setup, n: nat, response: LLMResponse, results: Dict<Value>, count: nat)
    ensures var t := FollowUps(s, n, response, results, count);
      (|t.requests| > 0 ==> KeysKept(results, SentResults(t.requests[0])))
      && forall i | 0 <= i < |t.requests| - 1 :: KeysKept(SentResults(t.requests[i]), SentResults(t.requests[i + 1]))
    decreases s.max - count
  {
    var t := FollowUps(s, n, response, results, count);
    if response.toolCalls != [] && count < s.max {
      var stored := Accumulate(results, response.toolCalls, s.value);
      var call := FollowUp(s, stored);
      assert KeysKept(results, stored) by {
        forall k | HasKey(results, k) ensures HasKey(stored, k) {
          AccumulateKeeps(results, response.toolCalls, s.value, k);
        }
      }
      if Generate(s.provider, n, call).Ok? {
        var next := Generate(s.provider, n, call).value;
        var rest := FollowUps(s, n + 1, next, stored, count + 1);
        FollowUpsCumulative(s, n + 1, next, stored, count + 1);
        assert t.requests == [call] + rest.requests;
        forall i | 0 <= i < |t.requests| - 1
          ensures KeysKept(SentResults(t.requests[i]), SentResults(t.requests[i + 1]))
        {
          if i > 0 {
            assert t.requests[i] == rest.requests[i - 1] && t.requests[i + 1] == rest.requests[i];
          }
        }
      }
    }
  }

  /** With `max_tool_calls <= 0` the first response is returned as is. */
  lemma ProviderRunNoFollowUps(s: Setup, n0: nat, first: GenerateCall)
    requires s.max <= 0
    ensures ProviderRun(s, n0, first) == Trace(Generate(s.provider, n0, first), [first])
  {
  }

  /** At most `max_tool_calls` follow-ups after the first request; an
      answer still asking for tools means the cap was reached. */
  lemma ProviderRunBound(s: Setup, n0: nat, first: GenerateCall)
    ensures var t := ProviderRun(s, n0, first);
      1 <= |t.requests| <= 1 + (if s.max < 0 then 0 else s.max)
      && t.requests[0] == first
      && (t.result.Ok? ==> t.result.value.toolCalls == [] || |t.requests| >= 1 + s.max)
  {
    var reply := Generate(s.provider, n0, first);
    if reply.Ok? {
      FollowUpsBound(s, n0 + 1, reply.value, [], 0);
      FollowUpsFinal(s, n0 + 1, reply.value, [], 0);
    }
  }

  /** Every request after the first is a follow-up: the prompt, the
      follow-up tools argument and extra options, and a result dictionary. */
  lemma ProviderRunFollowUps(s: Setup, n0: nat, first: GenerateCall, i: nat)
    requires 1 <= i < |ProviderRun(s, n0, first).requests|
    ensures var c := ProviderRun(s, n0, first).requests[i];
      c.prompt == AText(s.prompt) && c.tools == s.followTools && c.extras == s.extras && c.toolResults.AResults?
  {
    var reply := Generate(s.provider, n0, first);
    if reply.Ok? {
      var f := FollowUps(s, n0 + 1, reply.value, [], 0);
      FollowUpsFields(s, n0 + 1, reply.value, [], 0);
      assert ProviderRun(s, n0, first).requests == [first] + f.requests;
      assert ProviderRun(s, n0, first).requests[i] == f.requests[i - 1];
    }
  }

  // ---------------------------------------------------------------------------
  // The loop, run against a provider
  // ---------------------------------------------------------------------------

  /** The `for tool_call in response.tool_calls` loop of one round: the
      result of each call, as `value` gives it, is stored under the call's
      key. */
  method StoreResults(value: ToolCall -> Value, results: Dict<Value>, calls: seq<ToolCall>)
    returns (stored: Dict<Value>)
    ensures stored == Accumulate(results, calls, value)
  {
    stored := results;
    var i := 0;
    while i < |calls|
      invariant 0 <= i <= |calls|
      invariant stored == Accumulate(results, calls[..i], value)
    {
      assert calls[..i + 1][..i] == calls[..i];
      stored := Put(stored, ResultKey(calls[i]), value(calls[i]));
      i := i + 1;
    }
    assert calls[..|calls|] == calls;
  }

  /** One round of the loop, as the `n`-th request of the run: store the
      results of the latest calls, then ask again with all results so far.
      Before the round the whole run `total` is the requests `sent` so far
      followed by `FollowUps` from here; after it, `call` is sent too and the
      run ends on the error or goes on from the reply. */
  method FollowUpRound(p: Provider, prompt: string, followTools: Arg, extras: Dict<Arg>,
                       value: ToolCall -> Value, max: int,
                       ghost total: Trace, ghost sent: seq<GenerateCall>,
                       n: nat, response: LLMResponse, results: Dict<Value>, count: nat)
    returns (stored: Dict<Value>, call: GenerateCall, reply: Result<LLMResponse>)
    requires response.toolCalls != [] && count < max
    requires total == Then(sent, FollowUps(Setup(p, prompt, followTools, extras, value, max), n, response, results, count))
    ensures reply.Err? ==> total == Trace(Err(reply.error), sent + [call])
    ensures reply.Ok? ==>
      total == Then(sent + [call], FollowUps(Setup(p, prompt, followTools, extras, value, max),
                                             n + 1, reply.value, stored, count + 1))
  {
    stored := StoreResults(value, results, response.toolCalls);
    call := GenerateCall(AText(prompt), followTools, AResults(stored), extras);
    reply := Generate(p, n, call);
    if reply.Ok? {
      ThenThen(sent, [call], FollowUps(Setup(p, prompt, followTools, extras, value, max),
                                       n + 1, reply.value, stored, count + 1));
    }
  }

  /** The `while response.tool_calls and call_count < max_tool_calls` loop,
      entered after `n0` requests; `sent` are the follow-up requests. */
  method RunFollowUps(p: Provider, prompt: string, followTools: Arg, extras: Dict<Arg>,
                      value: ToolCall -> Value, max: int, n0: nat, response: LLMResponse)
    returns (r: Result<LLMResponse>, sent: seq<GenerateCall>)
    ensures r == FollowUps(Setup(p, prompt, followTools, extras, value, max), n0, response, [], 0).result
    ensures sent == FollowUps(Setup(p, prompt, followTools, extras, value, max), n0, response, [], 0).requests
  {
    ghost var s := Setup(p, prompt, followTools, extras, value, max);
    ghost var total := FollowUps(s, n0, response, [], 0);
    ThenNothing(total);
    sent := [];
    var n := n0;
    var current := response;
    var results: Dict<Value> := [];
    var count: nat := 0;
    while current.toolCalls != [] && count < max
      invariant total == Then(sent, FollowUps(s, n, current, results, count))
      decreases max - count
    {
      var stored, call, reply := FollowUpRound(p, prompt, followTools, extras, value, max,
                                               total, sent, n, current, results, count);
      if reply.Err? {
        return Err(reply.error), sent + [call];
      }
      sent := sent + [call];
      n, current, results, count := n + 1, reply.value, stored, count + 1;
    }
    FollowUpsStop(s, n, current, results, count);
    ThenDone(sent, Ok(current));
    r := Ok(current);
  }

  /** The first request, then the loop; `sent` are all requests of the run. */
  method RunProvider(p: Provider, prompt: string, followTools: Arg, extras: Dict<Arg>,
                     value: ToolCall -> Value, max: int, first: GenerateCall)
    returns (r: Result<LLMResponse>, sent: seq<GenerateCall>)
    ensures r == ProviderRun(Setup(p, prompt, followTools, extras, value, max), 0, first).result
    ensures sent == ProviderRun(Setup(p, prompt, followTools, extras, value, max), 0, first).requests
  {
    var reply := Generate(p, 0, first);
    if reply.Err? {
      return Err(reply.error), [first];
    }
    var rest;
    r, rest := RunFollowUps(p, prompt, followTools, extras, value, max, 1, reply.value);
    sent := [first] + rest;
  }

  // ---------------------------------------------------------------------------
  // The bridge
  // ---------------------------------------------------------------------------

  /** What the bridge was built with: an adapter, or a bare provider. */
  datatype Backend = AdapterBackend(adapter: ProviderAdapter) | ProviderBackend(provider: Provider)

  /** The request the newer loop starts with: the resolved tools and the
      extra options, no tool results. */
  function NewerFirst(prompt: string, tools: seq<Tool>, extras: Dict<Value>): GenerateCall {
    GenerateCall(AText(prompt), ATools(tools), ANone, ExtraArgs(extras))
  }

  /** `tool.invoke(arguments)` of the newer tool record. */
  function NewerInvoke(): (Tool, Dict<Value>) -> Result<Value> {
    (t: Tool, arguments: Dict<Value>) => Invoke(t, arguments)
  }

  /** `_execute_with_provider`: follow-ups send `tools=[]` and the extra
      options again. */
  function NewerRun(p: Provider, registry: Dict<Tool>, prompt: string, tools: seq<Tool>,
                    max: int, extras: Dict<Value>): Trace
  {
    ProviderRun(Setup(p, prompt, ATools([]), ExtraArgs(extras), Stored(registry, NewerInvoke()), max),
                0, NewerFirst(prompt, tools, extras))
  }

  /** The newer loop opens with the resolved tools and the extra options,
      sends at most `max_tool_calls` follow-ups, and every follow-up offers
      no tools (`tools=[]`) but repeats the extra options. */
  lemma NewerRunShape(p: Provider, registry: Dict<Tool>, prompt: string, tools: seq<Tool>,
                      max: int, extras: Dict<Value>, i: nat)
    requires i < |NewerRun(p, registry, prompt, tools, max, extras).requests|
    ensures var t := NewerRun(p, registry, prompt, tools, max, extras);
      |t.requests| <= 1 + (if max < 0 then 0 else max)
      && t.requests[0] == NewerFirst(prompt, tools, extras)
      && (i >= 1 ==> t.requests[i].tools == ATools([]) && t.requests[i].extras == ExtraArgs(extras)
                     && t.requests[i].prompt == AText(prompt) && t.requests[i].toolResults.AResults?)
  {
    var s := Setup(p, prompt, ATools([]), ExtraArgs(extras), Stored(registry, NewerInvoke()), max);
    ProviderRunBound(s, 0, NewerFirst(prompt, tools, extras));
    if i >= 1 {
      ProviderRunFollowUps(s, 0, NewerFirst(prompt, tools, extras), i);
    }
  }

  class ToolBridge {
    const backend: Backend
    var tools: Dict<Tool>

    constructor (backend: Backend)
      ensures this.backend == backend && tools == []
    {
      this.backend := backend;
      tools := [];
    }

    /** The provider every request ends up at. */
    function Target(): Provider {
      match backend
      case AdapterBackend(a) => a.provider
      case ProviderBackend(p) => p
    }

    /** `register_tool(tool)`. */
    method RegisterTool(tool: Tool) returns (r: Result<()>)
      modifies this
      ensures HasKey(old(tools), tool.name) ==>
        r == Err(Exc(ValueError, DuplicateMessage(tool.name))) && tools == old(tools)
      ensures !HasKey(old(tools), tool.name) ==>
        r == Ok(()) && tools == old(tools) + [(tool.name, tool)] && GetTool(tool.name) == Ok(tool)
    {
      if HasKey(tools, tool.name) {
        return Err(Exc(ValueError, DuplicateMessage(tool.name)));
      }
      tools := Put(tools, tool.name, tool);
      r := Ok(());
    }

    /** `register_tools(tools)`. */
    method RegisterTools(ts: seq<Tool>) returns (r: Result<()>)
      modifies this
      ensures tools == RegisterAll(old(tools), ts).registry
      ensures r == RegisterAll(old(tools), ts).outcome
    {
      var i := 0;
      while i < |ts|
        invariant 0 <= i <= |ts|
        invariant RegisterAll(tools, ts[i..]) == RegisterAll(old(tools), ts)
      {
        assert ts[i..][1..] == ts[i + 1..];
        r := RegisterTool(ts[i]);
        if r.Err? {
          return;
        }
        i := i + 1;
      }
      r := Ok(());
    }

    /** `get_tool(name)`. */
    function GetTool(name: string): (r: Result<Tool>)
      reads this
      ensures r == GetToolIn(tools, name)
    {
      GetToolIn(tools, name)
    }

    /** `_resolve_tools(tools)`. */
    method ResolveTools(refs: Option<seq<ToolRef>>) returns (r: Result<seq<Tool>>)
      ensures r == Resolve(tools, refs)
    {
      r := ResolveIn(tools, refs);
    }

    /** `_execute_with_provider(prompt, tools, max_tool_calls, **extras)`. */
    method ExecuteWithProvider(p: Provider, prompt: string, resolved: seq<Tool>, max: int, extras: Dict<Value>)
      returns (r: Result<LLMResponse>, sent: seq<GenerateCall>)
      ensures r == NewerRun(p, tools, prompt, resolved, max, extras).result
      ensures sent == NewerRun(p, tools, prompt, resolved, max, extras).requests
    {
      r, sent := RunProvider(p, prompt, ATools([]), ExtraArgs(extras), Stored(tools, NewerInvoke()), max,
                             NewerFirst(prompt, resolved, extras));
    }

    /** `await execute(prompt, tools, max_tool_calls, **extras)`: resolve the
        tools, then hand over to the adapter once, or run the loop over the
        provider; `sent` are the requests the model received. */
    method Execute(prompt: string, refs: Option<seq<ToolRef>>, max: int, extras: Dict<Value>)
      returns (r: Result<LLMResponse>, sent: seq<GenerateCall>)
      requires NoReservedKeys(extras)
      ensures Resolve(tools, refs).Err? ==> r == Err(Resolve(tools, refs).error) && sent == []
      ensures Resolve(tools, refs).Ok? && backend.AdapterBackend? ==>
        r == AdapterRun(Target().model, 0, prompt, Some(Resolve(tools, refs).value), max, extras).result
        && sent == AdapterRun(Target().model, 0, prompt, Some(Resolve(tools, refs).value), max, extras).requests
      ensures Resolve(tools, refs).Ok? && backend.ProviderBackend? ==>
        r == NewerRun(Target(), tools, prompt, Resolve(tools, refs).value, max, extras).result
        && sent == NewerRun(Target(), tools, prompt, Resolve(tools, refs).value, max, extras).requests
    {
      var resolved := ResolveTools(refs);
      if resolved.Err? {
        return Err(resolved.error), [];
      }
      match backend
      case AdapterBackend(a) =>
        r, sent := a.ExecuteWithTools(prompt, Some(resolved.value), max, extras);
      case ProviderBackend(p) =>
        r, sent := ExecuteWithProvider(p, prompt, resolved.value, max, extras);
    }

    /** `execute_sync(...)`: the adapter directly, otherwise `execute` run
        to completion. Both paths do the same. */
    method ExecuteSync(prompt: string, refs: Option<seq<ToolRef>>, max: int, extras: Dict<Value>)
      returns (r: Result<LLMResponse>, sent: seq<GenerateCall>)
      requires NoReservedKeys(extras)
      ensures Resolve(tools, refs).Err? ==> r == Err(Resolve(tools, refs).error) && sent == []
      ensures Resolve(tools, refs).Ok? && backend.AdapterBackend? ==>
        r == AdapterRun(Target().model, 0, prompt, Some(Resolve(tools, refs).value), max, extras).result
        && sent == AdapterRun(Target().model, 0, prompt, Some(Resolve(tools, refs).value), max, extras).requests
      ensures Resolve(tools, refs).Ok? && backend.ProviderBackend? ==>
        r == NewerRun(Target(), tools, prompt, Resolve(tools, refs).value, max, extras).result
        && sent == NewerRun(Target(), tools, prompt, Resolve(tools, refs).value, max, extras).requests
    {
      if backend.AdapterBackend? {
        var resolved := ResolveTools(refs);
        if resolved.Err? {
          return Err(resolved.error), [];
        }
        r, sent := backend.adapter.ExecuteWithTools(prompt, Some(resolved.value), max, extras);
      } else {
        r, sent := Execute(prompt, refs, max, extras);
      }
    }
  }
}
