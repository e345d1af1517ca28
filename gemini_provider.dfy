/** The Gemini provider (src/llm_toolbridge/providers/gemini.py): the
    conversation built from tool results, the function declarations built
    from the tools, and the tool calls read back from a response.

    The SDK is abstracted away: a response is the explicit datatype
    `GResponse` whose optional fields stand for attributes the object may
    lack, the content call is a function from the request to a response or
    an exception, and `json.loads` is a parameter. */
module GeminiGenAI {

  import opened Common
  import opened Text
  import opened Tool
  import opened ProviderInterface
  import opened ChatCompletions

  // ---------------------------------------------------------------------------
  // The SDK's response objects
  // ---------------------------------------------------------------------------

  /** The `args` of a function call: a dict, an object with attributes
      (`vars` gives them), a string, or `None`. */
  datatype GArgs = ArgsDict(d: Dict<Value>) | ArgsObject(attrs: Dict<Value>) | ArgsText(s: string) | ArgsNone

  datatype GFunctionCall = GFunctionCall(name: string, args: GArgs)

  /** A part; `functionCall` is `None` when it has no `function_call`
      attribute. */
  datatype GPart = GPart(functionCall: Option<GFunctionCall>)

  /** A response: its `text`, a `function_call` attribute if it has one,
      its `function_calls` (`None` when the SDK reports none) and its
      `parts` attribute if it has one. */
  datatype GResponse = GResponse(text: Option<string>, directCall: Option<GFunctionCall>,
                                 functionCalls: Option<seq<GFunctionCall>>, parts: Option<seq<GPart>>)

  // ---------------------------------------------------------------------------
  // parse_tool_calls
  // ---------------------------------------------------------------------------

  /** The arguments of one call, or an exception that ends the parsing. */
  datatype GStep = GEmit(arguments: Dict<Value>) | GHalt

  function RawArgs(text: string): Dict<Value> {
    [("raw_args", VStr(text))]
  }

  /** The arguments of a direct call or of a part's call: the dict itself,
      or the decoded string with `{raw_args: str(args)}` when it does not
      decode. `json.loads` of anything but a string raises a `TypeError`
      the inner handler does not catch, and a decoded non-object fails the
      `ToolCall` validation: both end the parsing. */
  function DirectArgs(a: GArgs, decode: JsonDecode): (s: GStep)
    ensures a.ArgsDict? ==> s == GEmit(a.d)
    ensures a.ArgsText? && decode(a.s).None? ==> s == GEmit(RawArgs(a.s))
    ensures a.ArgsText? && decode(a.s).Some? ==>
      (s.GEmit? <==> decode(a.s).value.VDict?) && (s.GEmit? ==> decode(a.s) == Some(VDict(s.arguments)))
    ensures a.ArgsObject? || a.ArgsNone? ==> s == GHalt
  {
    match a
    case ArgsDict(d) => GEmit(d)
    case ArgsText(t) =>
      (match decode(t)
       case None => GEmit(RawArgs(t))
       case Some(v) => if v.VDict? then GEmit(v.entries) else GHalt)
    case _ => GHalt
  }

  /** The arguments of a call from `function_calls`: the dict, the object's
      attributes, or `json.loads(str(args))` with `{raw_args: repr(args)}`
      when that does not decode. */
  function ListedArgs(a: GArgs, decode: JsonDecode): (s: GStep)
    ensures a.ArgsDict? ==> s == GEmit(a.d)
    ensures a.ArgsObject? ==> s == GEmit(a.attrs)
    ensures a.ArgsText? && decode(a.s).None? ==> s == GEmit(RawArgs(QuoteRepr(a.s)))
    ensures a.ArgsNone? && decode("None").None? ==> s == GEmit(RawArgs("None"))
    ensures s.GHalt? ==> (a.ArgsText? || a.ArgsNone?)
  {
    match a
    case ArgsDict(d) => GEmit(d)
    case ArgsObject(attrs) => GEmit(attrs)
    case ArgsText(t) =>
      (match decode(t)
       case None => GEmit(RawArgs(QuoteRepr(t)))
       case Some(v) => if v.VDict? then GEmit(v.entries) else GHalt)
    case ArgsNone =>
      (match decode("None")
       case None => GEmit(RawArgs("None"))
       case Some(v) => if v.VDict? then GEmit(v.entries) else GHalt)
  }

  const DirectId: string := "gemini-direct-call"

  function FunctionId(i: nat): string {
    "gemini-function-" + NatToString(i)
  }

  function PartId(i: nat): string {
    "gemini-part-" + NatToString(i)
  }

  /** The direct `function_call` of the response, if it has one. */
  function DirectParse(r: GResponse, decode: JsonDecode): Parse {
    if r.directCall.None? then Parse([], false)
    else
      match DirectArgs(r.directCall.value.args, decode)
      case GHalt => Parse([], true)
      case GEmit(a) => Parse([ToolCall(r.directCall.value.name, a, Some(DirectId))], false)
  }

  /** The calls of `function_calls[idx..]`, numbered from `idx`. */
  function ListedParse(calls: seq<GFunctionCall>, idx: nat, decode: JsonDecode): Parse
    decreases |calls|
  {
    if calls == [] then Parse([], false)
    else
      match ListedArgs(calls[0].args, decode)
      case GHalt => Parse([], true)
      case GEmit(a) => Prepend([ToolCall(calls[0].name, a, Some(FunctionId(idx)))], ListedParse(calls[1..], idx + 1, decode))
  }

  /** The calls of the parts `parts[idx..]` that have one, each numbered by
      the position of its part. */
  function PartsParse(parts: seq<GPart>, idx: nat, decode: JsonDecode): Parse
    decreases |parts|
  {
    if parts == [] then Parse([], false)
    else if parts[0].functionCall.None? then PartsParse(parts[1..], idx + 1, decode)
    else
      var c := parts[0].functionCall.value;
      match DirectArgs(c.args, decode)
      case GHalt => Parse([], true)
      case GEmit(a) => Prepend([ToolCall(c.name, a, Some(PartId(idx)))], PartsParse(parts[1..], idx + 1, decode))
  }

  /** `function_calls` is iterated only when the attribute is there; a
      `None` there raises. */
  function ListedSection(r: GResponse, decode: JsonDecode): Parse {
    if r.functionCalls.None? then Parse([], true) else ListedParse(r.functionCalls.value, 0, decode)
  }

  function PartsSection(r: GResponse, decode: JsonDecode): Parse {
    if r.parts.None? then Parse([], false) else PartsParse(r.parts.value, 0, decode)
  }

  /** `parse_tool_calls(response)`: the direct call, then the listed calls,
      then the parts' calls, keeping what was collected when an exception
      stops it. */
  function GeminiToolCalls(r: GResponse, decode: JsonDecode): seq<ToolCall> {
    var d := DirectParse(r, decode);
    if d.halted then d.calls
    else
      var l := ListedSection(r, decode);
      if l.halted then d.calls + l.calls
      else d.calls + l.calls + PartsSection(r, decode).calls
  }

  lemma ListedParseStep(calls: seq<GFunctionCall>, j: nat, decode: JsonDecode)
    requires j < |calls|
    ensures ListedArgs(calls[j].args, decode).GHalt? ==> ListedParse(calls[j..], j, decode) == Parse([], true)
    ensures ListedArgs(calls[j].args, decode).GEmit? ==>
      ListedParse(calls[j..], j, decode)
        == Prepend([ToolCall(calls[j].name, ListedArgs(calls[j].args, decode).arguments, Some(FunctionId(j)))],
                   ListedParse(calls[j + 1..], j + 1, decode))
  {
    assert calls[j..][0] == calls[j] && calls[j..][1..] == calls[j + 1..];
  }

  /** The loop over `function_calls`. */
  method ParseListed(calls: seq<GFunctionCall>, decode: JsonDecode) returns (p: Parse)
    ensures p == ListedParse(calls, 0, decode)
  {
    var collected := [];
    for j := 0 to |calls|
      invariant Prepend(collected, ListedParse(calls[j..], j, decode)) == ListedParse(calls, 0, decode)
    {
      ListedParseStep(calls, j, decode);
      var step := ListedArgs(calls[j].args, decode);
      if step.GHalt? {
        return Parse(collected, true);
      }
      var c := ToolCall(calls[j].name, step.arguments, Some(FunctionId(j)));
      PrependTwice(collected, [c], ListedParse(calls[j + 1..], j + 1, decode));
      collected := collected + [c];
    }
    assert calls[|calls|..] == [];
    p := Parse(collected, false);
  }

  lemma PartsParseStep(parts: seq<GPart>, j: nat, decode: JsonDecode)
    requires j < |parts|
    ensures parts[j].functionCall.None? ==> PartsParse(parts[j..], j, decode) == PartsParse(parts[j + 1..], j + 1, decode)
    ensures parts[j].functionCall.Some? && DirectArgs(parts[j].functionCall.value.args, decode).GHalt? ==>
      PartsParse(parts[j..], j, decode) == Parse([], true)
    ensures parts[j].functionCall.Some? && DirectArgs(parts[j].functionCall.value.args, decode).GEmit? ==>
      PartsParse(parts[j..], j, decode)
        == Prepend([ToolCall(parts[j].functionCall.value.name, DirectArgs(parts[j].functionCall.value.args, decode).arguments,
                             Some(PartId(j)))],
                   PartsParse(parts[j + 1..], j + 1, decode))
  {
    assert parts[j..][0] == parts[j] && parts[j..][1..] == parts[j + 1..];
  }

  /** The loop over `parts`. */
  method ParseParts(parts: seq<GPart>, decode: JsonDecode) returns (p: Parse)
    ensures p == PartsParse(parts, 0, decode)
  {
    var collected := [];
    for j := 0 to |parts|
      invariant Prepend(collected, PartsParse(parts[j..], j, decode)) == PartsParse(parts, 0, decode)
    {
      PartsParseStep(parts, j, decode);
      if parts[j].functionCall.Some? {
        var fc := parts[j].functionCall.value;
        var step := DirectArgs(fc.args, decode);
        if step.GHalt? {
          return Parse(collected, true);
        }
        var c := ToolCall(fc.name, step.arguments, Some(PartId(j)));
        PrependTwice(collected, [c], PartsParse(parts[j + 1..], j + 1, decode));
        collected := collected + [c];
      }
    }
    assert parts[|parts|..] == [];
    p := Parse(collected, false);
  }

  /** `parse_tool_calls(response)`. */
  method ParseToolCalls(r: GResponse, decode: JsonDecode) returns (calls: seq<ToolCall>)
    ensures calls == GeminiToolCalls(r, decode)
  {
    calls := [];
    if r.directCall.Some? {
      var step := DirectArgs(r.directCall.value.args, decode);
      if step.GHalt? {
        return;
      }
      calls := [ToolCall(r.directCall.value.name, step.arguments, Some(DirectId))];
    }
    if r.functionCalls.None? {
      return;
    }
    var listed := ParseListed(r.functionCalls.value, decode);
    calls := calls + listed.calls;
    if listed.halted {
      return;
    }
    if r.parts.Some? {
      var fromParts := ParseParts(r.parts.value, decode);
      calls := calls + fromParts.calls;
    }
  }

  // ---------------------------------------------------------------------------
  // Call ids
  // ---------------------------------------------------------------------------

  /** No two calls share an id. */
  predicate DistinctIds(cs: seq<ToolCall>) {
    forall i, j | 0 <= i < j < |cs| :: cs[i].callId != cs[j].callId
  }

  /** The character that tells the id patterns apart: the eighth. */
  function Tag(id: Option<string>): char {
    if id.Some? && |id.value| > 7 then id.value[7] else ' '
  }

  lemma TagDirect()
    ensures Tag(Some(DirectId)) == 'd'
  {
  }

  lemma TagFunction(i: nat)
    ensures Tag(Some(FunctionId(i))) == 'f'
  {
    var p := "gemini-function-";
    assert |p| == 16 && p[7] == 'f';
    assert FunctionId(i)[7] == p[7];
  }

  lemma TagPart(i: nat)
    ensures Tag(Some(PartId(i))) == 'p'
  {
    var p := "gemini-part-";
    assert |p| == 12 && p[7] == 'p';
    assert PartId(i)[7] == p[7];
  }

  lemma PrefixCancel(p: string, a: string, b: string)
    requires p + a == p + b
    ensures a == b
  {
    assert a == (p + a)[|p|..];
    assert b == (p + b)[|p|..];
  }

  lemma FunctionIdInjective(m: nat, n: nat)
    requires m != n
    ensures FunctionId(m) != FunctionId(n)
  {
    NatToStringInjective(m, n);
    if FunctionId(m) == FunctionId(n) {
      PrefixCancel("gemini-function-", NatToString(m), NatToString(n));
    }
  }

  lemma PartIdInjective(m: nat, n: nat)
    requires m != n
    ensures PartId(m) != PartId(n)
  {
    NatToStringInjective(m, n);
    if PartId(m) == PartId(n) {
      PrefixCancel("gemini-part-", NatToString(m), NatToString(n));
    }
  }

  /** The j-th listed call is `function_calls[idx + j]`, with id
      "gemini-function-<idx + j>". */
  lemma {:induction false} ListedIds(calls: seq<GFunctionCall>, idx: nat, decode: JsonDecode)
    ensures var cs := ListedParse(calls, idx, decode).calls;
      |cs| <= |calls| &&
      forall j | 0 <= j < |cs| :: cs[j].callId == Some(FunctionId(idx + j)) && cs[j].toolName == calls[j].name
  {
    if calls != [] && ListedArgs(calls[0].args, decode).GEmit? {
      ListedIds(calls[1..], idx + 1, decode);
    }
  }

  ghost predicate PartIdFrom(id: Option<string>, lo: nat) {
    exists k: nat | lo <= k :: id == Some(PartId(k))
  }

  /** The parts' calls carry "gemini-part-<k>" ids with increasing k, all at
      least `idx`. */
  lemma {:induction false} PartsIds(parts: seq<GPart>, idx: nat, decode: JsonDecode)
    ensures var cs := PartsParse(parts, idx, decode).calls;
      && (forall j | 0 <= j < |cs| :: PartIdFrom(cs[j].callId, idx))
      && DistinctIds(cs)
  {
    if parts == [] {
    } else if parts[0].functionCall.None? {
      PartsIds(parts[1..], idx + 1, decode);
      var cs := PartsParse(parts, idx, decode).calls;
      forall j | 0 <= j < |cs| ensures PartIdFrom(cs[j].callId, idx) {
        var k: nat :| idx + 1 <= k && cs[j].callId == Some(PartId(k));
      }
    } else if DirectArgs(parts[0].functionCall.value.args, decode).GEmit? {
      PartsIds(parts[1..], idx + 1, decode);
      var rest := PartsParse(parts[1..], idx + 1, decode).calls;
      var cs := PartsParse(parts, idx, decode).calls;
      assert cs[1..] == rest;
      assert cs[0].callId == Some(PartId(idx));
      forall j | 0 <= j < |cs| ensures PartIdFrom(cs[j].callId, idx) {
        if j > 0 {
          var k: nat :| idx + 1 <= k && rest[j - 1].callId == Some(PartId(k));
        }
      }
      forall i, j | 0 <= i < j < |cs| ensures cs[i].callId != cs[j].callId {
        if i > 0 {
          assert cs[i] == rest[i - 1] && cs[j] == rest[j - 1];
        } else {
          var k: nat :| idx + 1 <= k && rest[j - 1].callId == Some(PartId(k));
          PartIdInjective(idx, k);
        }
      }
    }
  }

  lemma DistinctConcat(a: seq<ToolCall>, b: seq<ToolCall>)
    requires DistinctIds(a) && DistinctIds(b)
    requires forall i, j | 0 <= i < |a| && 0 <= j < |b| :: Tag(a[i].callId) != Tag(b[j].callId)
    ensures DistinctIds(a + b)
  {
    forall i, j | 0 <= i < j < |a + b| ensures (a + b)[i].callId != (a + b)[j].callId {
      if j < |a| {
        assert (a + b)[i] == a[i] && (a + b)[j] == a[j];
      } else if i >= |a| {
        assert (a + b)[i] == b[i - |a|] && (a + b)[j] == b[j - |a|];
      } else {
        assert Tag(a[i].callId) != Tag(b[j - |a|].callId);
      }
    }
  }

  lemma ListedDistinct(r: GResponse, decode: JsonDecode)
    ensures var cs := ListedSection(r, decode).calls;
      DistinctIds(cs) && forall j | 0 <= j < |cs| :: Tag(cs[j].callId) == 'f'
  {
    if r.functionCalls.Some? {
      var cs := ListedSection(r, decode).calls;
      ListedIds(r.functionCalls.value, 0, decode);
      forall j | 0 <= j < |cs| ensures Tag(cs[j].callId) == 'f' {
        TagFunction(j);
      }
      forall i, j | 0 <= i < j < |cs| ensures cs[i].callId != cs[j].callId {
        FunctionIdInjective(i, j);
      }
    }
  }

  lemma PartsDistinct(r: GResponse, decode: JsonDecode)
    ensures var cs := PartsSection(r, decode).calls;
      DistinctIds(cs) && forall j | 0 <= j < |cs| :: Tag(cs[j].callId) == 'p'
  {
    if r.parts.Some? {
      var cs := PartsSection(r, decode).calls;
      PartsIds(r.parts.value, 0, decode);
      forall j | 0 <= j < |cs| ensures Tag(cs[j].callId) == 'p' {
        var k: nat :| cs[j].callId == Some(PartId(k));
        TagPart(k);
      }
    }
  }

  lemma DirectTagged(r: GResponse, decode: JsonDecode)
    ensures var cs := DirectParse(r, decode).calls;
      |cs| <= 1 && forall j | 0 <= j < |cs| :: Tag(cs[j].callId) == 'd'
  {
    TagDirect();
  }

  /** Every call read from one response has an id of its own, so the results
      stored under those ids never overwrite one another. */
  lemma GeminiIdsDistinct(r: GResponse, decode: JsonDecode)
    ensures DistinctIds(GeminiToolCalls(r, decode))
  {
    var d := DirectParse(r, decode).calls;
    var l := ListedSection(r, decode).calls;
    var p := PartsSection(r, decode).calls;
    DirectTagged(r, decode);
    ListedDistinct(r, decode);
    PartsDistinct(r, decode);
    DistinctConcat(d, l);
    if !DirectParse(r, decode).halted && !ListedSection(r, decode).halted {
      forall i, j | 0 <= i < |d + l| && 0 <= j < |p| ensures Tag((d + l)[i].callId) != Tag(p[j].callId) {
        if i < |d| { assert (d + l)[i] == d[i]; } else { assert (d + l)[i] == l[i - |d|]; }
      }
      DistinctConcat(d + l, p);
    }
  }

  // ---------------------------------------------------------------------------
  // The conversation sent
  // ---------------------------------------------------------------------------

  datatype GContentPart = TextPart(text: string) | CallPart(name: string, args: Dict<Value>) | ResponsePart(name: string, response: Value)

  datatype GContent = GContent(role: string, parts: seq<GContentPart>)

  function PromptContent(prompt: string): GContent {
    GContent("user", [TextPart(prompt)])
  }

  /** The tool name a result key stands for: the text before its first "-". */
  function ToolNameOf(key: string): (r: string)
    ensures '-' !in r && r <= key
    ensures r != key ==> key[|r|] == '-'
  {
    if '-' in key then
      var (head, tail) := SplitOnce(key, '-');
      assert key == head + ['-'] + tail;
      assert key[..|head|] == head;
      Split(key, '-')[0]
    else Split(key, '-')[0]
  }

  /** The function response sent for one stored result, as written: a truthy
      dict or list as it is, any other truthy value wrapped under "result",
      and for a falsy result `result_data.get("error", "Unknown error")`,
      which raises on anything but a dict. */
  function PayloadAsWritten(v: Value): Result<Value> {
    if Truthy(v) then Ok(if v.VDict? || v.VList? then v else VDict([("result", v)]))
    else if v.VDict? then Ok(VDict([("error", GetOr(v.entries, "error", VStr("Unknown error")))]))
    else Err(Exc(AttributeError, NoGetMessage(TypeName(v))))
  }

  /** The message of the `AttributeError` raised by `.get` on a value of the
      named type. */
  function NoGetMessage(typeName: string): string {
    "'" + typeName + "' object has no attribute 'get'"
  }

  /** The function response with the error branch as intended: every falsy
      result is reported as an unknown error. */
  function Payload(v: Value): Value {
    if Truthy(v) then (if v.VDict? || v.VList? then v else VDict([("result", v)]))
    else VDict([("error", VStr("Unknown error"))])
  }

  /** The two agree wherever the original does not raise, and it raises
      exactly on the falsy results that are not dicts. */
  lemma PayloadAgrees(v: Value)
    ensures PayloadAsWritten(v).Err? <==> !Truthy(v) && !v.VDict?
    ensures PayloadAsWritten(v).Ok? ==> PayloadAsWritten(v).value == Payload(v)
  {
    if !Truthy(v) && v.VDict? {
      assert v.entries == [];
    }
  }

  /** The pair of entries one stored result adds: the model's call of the
      tool, with no arguments, then the user's function response. */
  function ResultPair(key: string, payload: Value): seq<GContent> {
    [GContent("model", [CallPart(ToolNameOf(key), [])]),
     GContent("user", [ResponsePart(ToolNameOf(key), payload)])]
  }

  /** The entries after the prompt, as intended. */
  function ResultContents(results: seq<(string, Value)>): (cs: seq<GContent>)
    ensures |cs| == 2 * |results|
  {
    if results == [] then []
    else
      var last := results[|results| - 1];
      ResultContents(results[..|results| - 1]) + ResultPair(last.0, Payload(last.1))
  }

  /** The entries after the prompt, as written: the first result whose
      payload raises stops the construction. */
  function ResultContentsAsWritten(results: seq<(string, Value)>): Result<seq<GContent>> {
    if results == [] then Ok([])
    else
      var last := results[|results| - 1];
      var before := ResultContentsAsWritten(results[..|results| - 1]);
      if before.Err? then before
      else
        match PayloadAsWritten(last.1)
        case Err(e) => Err(e)
        case Ok(payload) => Ok(before.value + ResultPair(last.0, payload))
  }

  /** The contents of `_generate_sync`: the prompt, then a pair per result. */
  function Contents(prompt: string, results: Dict<Value>): seq<GContent> {
    [PromptContent(prompt)] + ResultContents(results)
  }

  function ContentsAsWritten(prompt: string, results: Dict<Value>): Result<seq<GContent>> {
    var rest := ResultContentsAsWritten(results);
    if rest.Err? then Err(rest.error) else Ok([PromptContent(prompt)] + rest.value)
  }

  /** Where each result lands: entry 1 + 2i is the call of the tool named by
      the i-th key, entry 2 + 2i its response. */
  lemma {:induction false} ResultContentsAt(results: seq<(string, Value)>, i: nat)
    requires i < |results|
    ensures ResultContents(results)[2 * i] == GContent("model", [CallPart(ToolNameOf(results[i].0), [])])
    ensures ResultContents(results)[2 * i + 1] == GContent("user", [ResponsePart(ToolNameOf(results[i].0), Payload(results[i].1))])
  {
    var init := results[..|results| - 1];
    if i < |results| - 1 {
      ResultContentsAt(init, i);
      assert init[i] == results[i];
    }
  }

  lemma ContentsAt(prompt: string, results: Dict<Value>, i: nat)
    requires i < |results|
    ensures |Contents(prompt, results)| == 1 + 2 * |results| && Contents(prompt, results)[0] == PromptContent(prompt)
    ensures Contents(prompt, results)[1 + 2 * i] == GContent("model", [CallPart(ToolNameOf(results[i].0), [])])
    ensures Contents(prompt, results)[2 + 2 * i] == GContent("user", [ResponsePart(ToolNameOf(results[i].0), Payload(results[i].1))])
  {
    var rc := ResultContents(results);
    ResultContentsAt(results, i);
    var c := [PromptContent(prompt)] + rc;
    assert c[1 + 2 * i] == rc[2 * i] && c[2 + 2 * i] == rc[2 * i + 1];
  }

  /** No stored result makes the original raise. */
  predicate PayloadsOk(results: seq<(string, Value)>) {
    forall i | 0 <= i < |results| :: PayloadAsWritten(results[i].1).Ok?
  }

  lemma PayloadsOkSplit(results: seq<(string, Value)>)
    requires results != []
    ensures PayloadsOk(results) <==>
      PayloadsOk(results[..|results| - 1]) && PayloadAsWritten(results[|results| - 1].1).Ok?
  {
    var init := results[..|results| - 1];
    if PayloadsOk(init) && PayloadAsWritten(results[|results| - 1].1).Ok? {
      forall i | 0 <= i < |results| ensures PayloadAsWritten(results[i].1).Ok? {
        if i < |init| {
          assert results[i] == init[i];
        }
      }
    }
  }

  /** Without a falsy non-dict result the original builds the intended
      contents, and with one it raises. */
  lemma {:induction false} ResultContentsAgree(results: seq<(string, Value)>)
    ensures ResultContentsAsWritten(results).Ok? <==> PayloadsOk(results)
    ensures ResultContentsAsWritten(results).Ok? ==> ResultContentsAsWritten(results).value == ResultContents(results)
  {
    if results != [] {
      ResultContentsAgree(results[..|results| - 1]);
      PayloadAgrees(results[|results| - 1].1);
      PayloadsOkSplit(results);
    }
  }

  lemma ContentsAgree(prompt: string, results: Dict<Value>)
    ensures ContentsAsWritten(prompt, results).Ok? <==> forall i | 0 <= i < |results| :: Truthy(results[i].1) || results[i].1.VDict?
    ensures ContentsAsWritten(prompt, results).Ok? ==> ContentsAsWritten(prompt, results).value == Contents(prompt, results)
  {
    ResultContentsAgree(results);
    assert PayloadsOk(results) <==> forall i | 0 <= i < |results| :: PayloadAsWritten(results[i].1).Ok?;
    forall i | 0 <= i < |results| ensures PayloadAsWritten(results[i].1).Ok? <==> Truthy(results[i].1) || results[i].1.VDict? {
      PayloadAgrees(results[i].1);
    }
  }

  lemma NonePayloadRaises()
    ensures PayloadAsWritten(VNone) == Err(Exc(AttributeError, NoGetMessage("NoneType")))
  {
  }

  /** A tool that returned `None` makes the original raise before any
      request is sent, whatever the prompt and the key. */
  lemma NoneResultRaises(prompt: string, key: string)
    ensures ContentsAsWritten(prompt, [(key, VNone)]) == Err(Exc(AttributeError, NoGetMessage("NoneType")))
  {
    var results: Dict<Value> := [(key, VNone)];
    assert results[..0] == [];
    assert ResultContentsAsWritten(results[..0]) == Ok([]);
    NonePayloadRaises();
  }

  lemma ContentsStep(prompt: string, results: Dict<Value>, i: nat)
    requires i < |results|
    ensures Contents(prompt, results[..i + 1]) == Contents(prompt, results[..i]) + ResultPair(results[i].0, Payload(results[i].1))
  {
    assert results[..i + 1][..i] == results[..i];
    assert results[..i + 1][i] == results[i];
  }

  /** The contents loop of `_generate_sync`, with the intended error branch. */
  method BuildContents(prompt: string, results: Dict<Value>) returns (contents: seq<GContent>)
    ensures contents == Contents(prompt, results)
  {
    contents := [PromptContent(prompt)];
    for i := 0 to |results|
      invariant contents == Contents(prompt, results[..i])
    {
      ContentsStep(prompt, results, i);
      var (key, value) := results[i];
      contents := contents + ResultPair(key, Payload(value));
    }
    assert results[..|results|] == results;
  }

  // ---------------------------------------------------------------------------
  // format_tools_for_provider
  // ---------------------------------------------------------------------------

  /** A function declaration; its `parameters` block is always of type
      "object" and holds these properties and this required list. */
  datatype FunctionDeclaration = FunctionDeclaration(name: string, description: string, properties: Dict<Value>, required: Value)

  /** A property as declared to Gemini: a copy without its "default" key. */
  function CleanProperty(v: Value): Value {
    if v.VDict? then VDict(Remove(v.entries, "default")) else v
  }

  /** The shape `to_dict()` always produces: a "parameters" dict holding a
      "properties" dict. */
  predicate WellShaped(schema: Dict<Value>) {
    var params := Lookup(schema, "parameters");
    params.Some? && params.value.VDict? &&
    var props := Lookup(params.value.entries, "properties");
    props.Some? && props.value.VDict?
  }

  /** The declaration built from a tool's name, description and `to_dict()`
      output: every property cleaned, and the required list copied when
      there is one and empty otherwise. */
  function DeclarationFrom(name: string, description: string, schema: Dict<Value>): FunctionDeclaration
    requires WellShaped(schema)
  {
    var params := Lookup(schema, "parameters").value.entries;
    var props := Lookup(params, "properties").value.entries;
    FunctionDeclaration(name, description, MapValues(props, CleanProperty), GetOr(params, "required", VList([])))
  }

  lemma SchemaParameters(t: Tool)
    ensures Lookup(Schema(t), "parameters") == Some(VDict(ParametersBlock(t.parameters)))
  {
    LookupAt(Schema(t), 2);
  }

  lemma BlockProperties(ps: Dict<Param>)
    ensures Lookup(ParametersBlock(ps), "properties") == Some(VDict(Collect(ps, PropertyValue)))
  {
    var full := BlockEntries(VDict(Collect(ps, PropertyValue)), VList(AsStrings(NamesWhere(ps, IsRequired))));
    LookupAt(full, 1);
  }

  /** Whether or not `to_dict()` dropped an empty required list, the
      declaration's list names exactly the required parameters. */
  lemma BlockRequired(ps: Dict<Param>)
    ensures GetOr(ParametersBlock(ps), "required", VList([])) == VList(AsStrings(NamesWhere(ps, IsRequired)))
  {
    var required := NamesWhere(ps, IsRequired);
    var full := BlockEntries(VDict(Collect(ps, PropertyValue)), VList(AsStrings(required)));
    LookupAt(full, 2);
    if required == [] {
      assert !HasKey(Remove(full, "required"), "required");
    }
  }

  lemma SchemaWellShaped(t: Tool)
    ensures WellShaped(Schema(t))
  {
    SchemaParameters(t);
    BlockProperties(t.parameters);
  }

  /** The declaration of one tool. */
  function Declaration(t: Tool): FunctionDeclaration {
    SchemaWellShaped(t);
    DeclarationFrom(t.name, t.description, Schema(t))
  }

  /** The declaration carries the tool's name and description, each
      parameter in order with its schema minus "default", and the names of
      the required parameters. */
  lemma DeclarationOf(t: Tool)
    ensures var d := Declaration(t);
      && d.name == t.name && d.description == t.description
      && |d.properties| == |t.parameters|
      && (forall i | 0 <= i < |t.parameters| ::
            d.properties[i] == (t.parameters[i].0, VDict(Remove(PropertySchema(t.parameters[i].1), "default"))))
      && d.required == VList(AsStrings(NamesWhere(t.parameters, IsRequired)))
  {
    SchemaParameters(t);
    BlockProperties(t.parameters);
    BlockRequired(t.parameters);
  }

  /** No declared property keeps a "default". */
  lemma DeclarationHasNoDefaults(t: Tool, i: nat)
    requires i < |Declaration(t).properties|
    ensures Declaration(t).properties[i].1.VDict? && !HasKey(Declaration(t).properties[i].1.entries, "default")
  {
    DeclarationOf(t);
  }

  lemma MapValuesStep(props: Dict<Value>, i: nat)
    requires i < |props|
    ensures !HasKey(MapValues(props[..i], CleanProperty), props[i].0)
    ensures MapValues(props[..i + 1], CleanProperty) == MapValues(props[..i], CleanProperty) + [(props[i].0, CleanProperty(props[i].1))]
  {
    var before := MapValues(props[..i], CleanProperty);
    forall j | 0 <= j < |before| ensures before[j].0 != props[i].0 {
      assert before[j].0 == props[j].0;
    }
  }

  /** One declaration: the properties copied one by one into the empty
      properties dict, then the required list. */
  method Declare(t: Tool) returns (d: FunctionDeclaration)
    ensures d == Declaration(t)
  {
    var schema := ToDict(t);
    SchemaWellShaped(t);
    var params := Lookup(schema, "parameters").value.entries;
    var props := Lookup(params, "properties").value.entries;
    var cleaned: Dict<Value> := [];
    for i := 0 to |props|
      invariant cleaned == MapValues(props[..i], CleanProperty)
    {
      MapValuesStep(props, i);
      cleaned := Put(cleaned, props[i].0, CleanProperty(props[i].1));
    }
    assert props[..|props|] == props;
    var required := VList([]);
    if HasKey(params, "required") {
      required := Lookup(params, "required").value;
    }
    d := FunctionDeclaration(t.name, t.description, cleaned, required);
  }

  /** The declarations of a tool list, in order. */
  function Declarations(tools: seq<Tool>): (ds: seq<FunctionDeclaration>)
    ensures |ds| == |tools|
  {
    if tools == [] then [] else Declarations(tools[..|tools| - 1]) + [Declaration(tools[|tools| - 1])]
  }

  lemma {:induction false} DeclarationsAt(tools: seq<Tool>, i: nat)
    requires i < |tools|
    ensures Declarations(tools)[i] == Declaration(tools[i])
  {
    if i < |tools| - 1 {
      DeclarationsAt(tools[..|tools| - 1], i);
    }
  }

  lemma DeclarationsStep(tools: seq<Tool>, i: nat)
    requires i < |tools|
    ensures Declarations(tools[..i + 1]) == Declarations(tools[..i]) + [Declaration(tools[i])]
  {
    assert tools[..i + 1][..i] == tools[..i];
  }

  /** `format_tools_for_provider(tools)`: one declaration per tool, in order,
      all inside one vendor tool object. */
  method FormatTools(tools: seq<Tool>) returns (declarations: seq<FunctionDeclaration>)
    ensures declarations == Declarations(tools)
  {
    declarations := [];
    for i := 0 to |tools|
      invariant declarations == Declarations(tools[..i])
    {
      var d := Declare(tools[i]);
      DeclarationsStep(tools, i);
      declarations := declarations + [d];
    }
    assert tools[..|tools|] == tools;
  }

  // ---------------------------------------------------------------------------
  // Configuration and generation
  // ---------------------------------------------------------------------------

  /** How the model may use the declared functions. */
  datatype CallingMode = Auto | Any | NoCalls

  datatype GeminiConfig = GeminiConfig(apiKey: string, model: string, mode: CallingMode, generationConfig: Option<Dict<Value>>)

  /** A configuration with the model and calling mode left at their
      defaults. */
  function NewGeminiConfig(apiKey: string): (c: GeminiConfig)
    ensures c.apiKey == apiKey && c.model == "gemini-2.0-pro" && c.mode == Auto && c.generationConfig == None
  {
    GeminiConfig(apiKey, "gemini-2.0-pro", Auto, None)
  }

  /** `config.generation_config or {}`. */
  function BaseGeneration(config: GeminiConfig): (g: Dict<Value>)
    ensures config.generationConfig.Some? ==> g == config.generationConfig.value
    ensures config.generationConfig.None? ==> g == []
  {
    if config.generationConfig.Some? then config.generationConfig.value else []
  }

  /** `{**base, **over}`: every key of either, with the value of `over`
      where both have it. */
  function Merge(base: Dict<Value>, over: Dict<Value>): Dict<Value>
    decreases |over|
  {
    if over == [] then base
    else Put(Merge(base, over[..|over| - 1]), over[|over| - 1].0, over[|over| - 1].1)
  }

  lemma {:induction false} MergeLookup(base: Dict<Value>, over: Dict<Value>, k: string)
    ensures Lookup(Merge(base, over), k) == if HasKey(over, k) then Lookup(over, k) else Lookup(base, k)
  {
    if over != [] {
      var init, last := over[..|over| - 1], over[|over| - 1];
      assert over == init + [last];
      MergeLookup(base, init, k);
      if last.0 == k {
        LookupAt(over, |over| - 1);
      } else {
        LookupAppend(init, last, k);
      }
    }
  }

  /** The entries of `d` whose keys `keep` accepts, in order. */
  function Restrict(d: Dict<Value>, keep: string -> bool): Dict<Value>
    decreases |d|
  {
    if d == [] then []
    else
      var rest := Restrict(d[..|d| - 1], keep);
      if keep(d[|d| - 1].0) then Put(rest, d[|d| - 1].0, d[|d| - 1].1) else rest
  }

  lemma {:induction false} RestrictLookup(d: Dict<Value>, keep: string -> bool, k: string)
    ensures Lookup(Restrict(d, keep), k) == if keep(k) then Lookup(d, k) else None
  {
    if d != [] {
      var init, last := d[..|d| - 1], d[|d| - 1];
      assert d == init + [last];
      RestrictLookup(init, keep, k);
      if last.0 == k {
        LookupAt(d, |d| - 1);
      } else {
        LookupAppend(init, last, k);
      }
    }
  }

  /** The tool part of a request: one vendor tool holding the declarations,
      and the calling mode. */
  datatype GeminiTools = GeminiTools(declarations: seq<FunctionDeclaration>, mode: CallingMode)

  /** The arguments of `generate_content`; `generation` holds the generation
      parameters the request's config carries. */
  datatype GeminiRequest = GeminiRequest(model: string, contents: seq<GContent>, tools: Option<GeminiTools>, generation: Dict<Value>)

  /** The request for one call. With tools, the merged generation
      parameters are copied only onto attributes the config type has
      (`isField`); without tools, the config is built from all of them. */
  function GeminiRequestFor(config: GeminiConfig, isField: string -> bool, prompt: string, tools: seq<Tool>,
                            results: Dict<Value>, generation: Dict<Value>): GeminiRequest
  {
    if tools != [] then
      GeminiRequest(config.model, Contents(prompt, results), Some(GeminiTools(Declarations(tools), config.mode)),
                    Restrict(generation, isField))
    else
      GeminiRequest(config.model, Contents(prompt, results), None, generation)
  }

  /** The request carries the configured model, the prompt followed by one
      call/response pair per result, the tools' declarations with the
      configured mode exactly when there are tools, and the generation
      parameters, limited to the config's attributes when there are tools. */
  lemma GeminiRequestShape(config: GeminiConfig, isField: string -> bool, prompt: string, tools: seq<Tool>,
                           results: Dict<Value>, generation: Dict<Value>, k: string)
    ensures var req := GeminiRequestFor(config, isField, prompt, tools, results, generation);
      && req.model == config.model
      && req.contents[0] == PromptContent(prompt)
      && |req.contents| == 1 + 2 * |results|
      && (req.tools.Some? <==> tools != [])
      && (req.tools.Some? ==> req.tools.value.mode == config.mode && |req.tools.value.declarations| == |tools|)
      && Lookup(req.generation, k) == if tools != [] && !isField(k) then None else Lookup(generation, k)
  {
    RestrictLookup(generation, isField, k);
  }

  /** `str(e)` of the TypeError `{**v}` raises on a value that is not a
      mapping. */
  function NotMappingMessage(typeName: string): string {
    "'" + typeName + "' object is not a mapping"
  }

  /** The response: its text, and the parsed calls when the response lists
      any (`function_calls` not None). */
  function GeminiAnswer(r: GResponse, decode: JsonDecode): (a: LLMResponse)
    ensures a.content == r.text
    ensures r.functionCalls.None? ==> a.toolCalls == []
    ensures DistinctIds(a.toolCalls)
  {
    GeminiIdsDistinct(r, decode);
    LLMResponse(r.text, if r.functionCalls.Some? then GeminiToolCalls(r, decode) else [])
  }

  type GeminiClient = GeminiRequest -> Result<GResponse>

  /** `_generate_sync`: merges the configured generation parameters with
      the call's own, builds the request and normalises the answer; a
      `generation_config` argument that is not a mapping raises TypeError
      before the request is built, and a failed request is raised again as
      RuntimeError. */
  function GeminiGenerated(config: GeminiConfig, isField: string -> bool, client: GeminiClient, decode: JsonDecode,
                           prompt: string, tools: seq<Tool>, results: Dict<Value>, kwargs: Dict<Value>): (r: Result<LLMResponse>)
    ensures var extra := Lookup(kwargs, "generation_config");
      && (extra.Some? && !extra.value.VDict? ==> r == Err(Exc(TypeError, NotMappingMessage(TypeName(extra.value)))))
      && (extra.None? || extra.value.VDict? ==>
            var generation := Merge(BaseGeneration(config), if extra.Some? then extra.value.entries else []);
            var answer := client(GeminiRequestFor(config, isField, prompt, tools, results, generation));
            && (r.Ok? <==> answer.Ok?)
            && (answer.Ok? ==> r.value.content == answer.value.text && DistinctIds(r.value.toolCalls))
            && (answer.Err? ==> r == Err(Exc(RuntimeError, "Gemini API error: " + Str(answer.error)))))
  {
    var extra := Lookup(kwargs, "generation_config");
    if extra.Some? && !extra.value.VDict? then Err(Exc(TypeError, NotMappingMessage(TypeName(extra.value))))
    else
      var generation := Merge(BaseGeneration(config), if extra.Some? then extra.value.entries else []);
      var answer := client(GeminiRequestFor(config, isField, prompt, tools, results, generation));
      if answer.Err? then Err(Exc(RuntimeError, "Gemini API error: " + Str(answer.error)))
      else Ok(GeminiAnswer(answer.value, decode))
  }

  lemma RestrictStep(d: Dict<Value>, keep: string -> bool, i: nat)
    requires i < |d|
    ensures Restrict(d[..i + 1], keep) ==
      if keep(d[i].0) then Put(Restrict(d[..i], keep), d[i].0, d[i].1) else Restrict(d[..i], keep)
  {
    assert d[..i + 1][..i] == d[..i];
  }

  /** The `setattr` loop: each merged parameter is copied onto the config
      when the config type has that attribute. */
  method ApplyFields(generation: Dict<Value>, isField: string -> bool) returns (attrs: Dict<Value>)
    ensures attrs == Restrict(generation, isField)
  {
    attrs := [];
    for i := 0 to |generation|
      invariant attrs == Restrict(generation[..i], isField)
    {
      RestrictStep(generation, isField, i);
      if isField(generation[i].0) {
        attrs := Put(attrs, generation[i].0, generation[i].1);
      }
    }
    assert generation[..|generation|] == generation;
  }

  method GenerateSync(config: GeminiConfig, isField: string -> bool, client: GeminiClient, decode: JsonDecode,
                      prompt: string, tools: seq<Tool>, results: Dict<Value>, kwargs: Dict<Value>)
    returns (r: Result<LLMResponse>)
    ensures r == GeminiGenerated(config, isField, client, decode, prompt, tools, results, kwargs)
  {
    var extra := Lookup(kwargs, "generation_config");
    if extra.Some? && !extra.value.VDict? {
      return Err(Exc(TypeError, NotMappingMessage(TypeName(extra.value))));
    }
    var generation := Merge(BaseGeneration(config), if extra.Some? then extra.value.entries else []);
    var contents := BuildContents(prompt, results);
    var request := GeminiRequest(config.model, contents, None, generation);
    if tools != [] {
      var declarations := FormatTools(tools);
      var attrs := ApplyFields(generation, isField);
      request := GeminiRequest(config.model, contents, Some(GeminiTools(declarations, config.mode)), attrs);
    }
    var answer := client(request);
    if answer.Err? {
      return Err(Exc(RuntimeError, "Gemini API error: " + Str(answer.error)));
    }
    var calls := [];
    if answer.value.functionCalls.Some? {
      calls := ParseToolCalls(answer.value, decode);
    }
    r := Ok(LLMResponse(answer.value.text, calls));
  }

  // ---------------------------------------------------------------------------
  // As a provider
  // ---------------------------------------------------------------------------

  /** The `model` of a Gemini provider whose client answers the n-th request
      of a run with `client(n, request)`. */
  function GeminiModel(config: GeminiConfig, isField: string -> bool, client: (nat, GeminiRequest) -> Result<GResponse>,
                       decode: JsonDecode): (nat, GenerateCall) -> Result<LLMResponse> {
    (n: nat, call: GenerateCall) =>
      var inputs := CallInputs(call);
      if inputs.None? then Err(Exc(TypeError, "unsupported arguments"))
      else GeminiGenerated(config, isField, (request: GeminiRequest) => client(n, request), decode,
                           inputs.value.prompt, inputs.value.tools, inputs.value.results, inputs.value.kwargs)
  }

  function NewGeminiProvider(config: GeminiConfig, isField: string -> bool, client: (nat, GeminiRequest) -> Result<GResponse>,
                             decode: JsonDecode): (p: Provider)
    ensures p.kind == GeminiProviderKind
    ensures p.model == GeminiModel(config, isField, client, decode)
  {
    Provider(GeminiProviderKind, GeminiModel(config, isField, client, decode))
  }

  /** What `generate` answers for a request of the shape the adapters and
      bridges send: the normalised response, whose call ids are distinct,
      when the SDK answers; when the SDK fails, its message behind the
      "Gemini API error: " prefix twice, since both `_generate_sync` and
      `generate` add it. */
  lemma GeminiProviderAnswers(config: GeminiConfig, isField: string -> bool, client: (nat, GeminiRequest) -> Result<GResponse>,
                              decode: JsonDecode, n: nat, prompt: string, tools: seq<Tool>, results: Dict<Value>)
    ensures var answer := client(n, GeminiRequestFor(config, isField, prompt, tools, results, BaseGeneration(config)));
      var r := Generate(NewGeminiProvider(config, isField, client, decode), n,
                        GenerateCall(AText(prompt), ATools(tools), AResults(results), []));
      && (answer.Ok? ==> r == Ok(GeminiAnswer(answer.value, decode)) && DistinctIds(r.value.toolCalls))
      && (answer.Err? ==> r == Err(Exc(RuntimeError, "Gemini API error: " + ("Gemini API error: " + Str(answer.error)))))
  {
    var call := GenerateCall(AText(prompt), ATools(tools), AResults(results), []);
    var p := NewGeminiProvider(config, isField, client, decode);
    ExtraArgsValues([]);
    assert CallInputs(call) == Some(Inputs(prompt, tools, results, []));
    var c := (request: GeminiRequest) => client(n, request);
    assert p.model(n, call) == GeminiGenerated(config, isField, c, decode, prompt, tools, results, []);
    assert Merge(BaseGeneration(config), []) == BaseGeneration(config);
    var answer := client(n, GeminiRequestFor(config, isField, prompt, tools, results, BaseGeneration(config)));
    if answer.Err? {
      var inner := "Gemini API error: " + Str(answer.error);
      assert p.model(n, call) == Err(Exc(RuntimeError, inner));
    }
  }
}
