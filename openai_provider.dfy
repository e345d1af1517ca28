/** The OpenAI provider (src/llm_toolbridge/providers/openai.py): the
    chat-completions model with result messages in the "assistant" role, the
    newer tool serialiser, and the request's model taken from the
    configuration. */
module OpenAIChat {

  import opened Common
  import opened Tool
  import opened ProviderInterface
  import opened ChatCompletions

  /** `OpenAIConfig`. */
  datatype OpenAIConfig = OpenAIConfig(apiKey: string, model: string, organization: Option<string>, baseUrl: Option<string>)

  /** `OpenAIConfig(api_key=..., ...)` with the fields left out given as
      `None`: the model defaults to "gpt-4". */
  function NewOpenAIConfig(apiKey: string, model: Option<string>, organization: Option<string>, baseUrl: Option<string>)
    : (c: OpenAIConfig)
    ensures c.model == (if model.Some? then model.value else "gpt-4")
    ensures c.apiKey == apiKey && c.organization == organization && c.baseUrl == baseUrl
  {
    OpenAIConfig(apiKey, if model.Some? then model.value else "gpt-4", organization, baseUrl)
  }

  /** The keyword arguments the client is built with; an optional one is
      `None` when it is not passed. */
  datatype ClientOptions = ClientOptions(apiKey: string, organization: Option<string>, baseUrl: Option<string>)

  /** `organization` and `base_url` are passed only when they are truthy:
      an empty string counts as absent. */
  function ClientOptionsOf(config: OpenAIConfig): (o: ClientOptions)
    ensures o.apiKey == config.apiKey
    ensures o.organization.Some? <==> config.organization.Some? && config.organization.value != ""
    ensures o.baseUrl.Some? <==> config.baseUrl.Some? && config.baseUrl.value != ""
    ensures o.organization.Some? ==> o.organization == config.organization
    ensures o.baseUrl.Some? ==> o.baseUrl == config.baseUrl
  {
    ClientOptions(config.apiKey,
                  if config.organization.Some? && config.organization.value != "" then config.organization else None,
                  if config.baseUrl.Some? && config.baseUrl.value != "" then config.baseUrl else None)
  }

  function OpenAIFlavor(): Flavor {
    Flavor("assistant", Schema, "OpenAI API request failed: ")
  }

  /** `OpenAIProvider(config)` over a client that answers the n-th request
      of a run with `client(n, request)`. */
  function NewOpenAIProvider(config: OpenAIConfig, sampling: Sampling, client: (nat, ChatRequest) -> Result<RawResponse>,
                             decode: JsonDecode, encode: Value -> string): (p: Provider)
    ensures p.kind == OpenAIProviderKind
  {
    Provider(OpenAIProviderKind, ChatModel(OpenAIFlavor(), config.model, sampling, client, decode, encode))
  }

  /** The request the OpenAI provider sends carries the configured model,
      the prompt followed by one "assistant" message per tool result, and, when
      there are tools, each tool serialised by the newer `to_dict`. */
  lemma OpenAIRequest(config: OpenAIConfig, sampling: Sampling, encode: Value -> string,
                      prompt: string, tools: seq<Tool>, results: Dict<Value>, kwargs: Dict<Value>)
    ensures var req := Request(OpenAIFlavor(), config.model, sampling, encode, prompt, tools, results, kwargs);
      && req.model == config.model
      && req.messages[0] == UserMessage(prompt)
      && (forall i | 0 <= i < |results| ::
            req.messages[1 + i] == ResultMessage("assistant", results[i].0, results[i].1, encode))
      && (req.tools.Some? <==> tools != [])
      && (forall i | 0 <= i < |tools| && req.tools.Some? ::
            Lookup(req.tools.value[i].entries, "function") == Some(VDict(Schema(tools[i]))))
  {
    RequestShape(OpenAIFlavor(), config.model, sampling, encode, prompt, tools, results, kwargs);
  }

  /** The OpenAI provider answers a request of the adapters' shape with the
      normalised response, and a failure of the client with a generic
      exception carrying its prefix. */
  lemma OpenAIAnswer(config: OpenAIConfig, sampling: Sampling, client: (nat, ChatRequest) -> Result<RawResponse>,
                     decode: JsonDecode, encode: Value -> string, n: nat,
                     prompt: string, tools: seq<Tool>, results: Dict<Value>, kwargs: Dict<Value>)
    ensures var answer := client(n, Request(OpenAIFlavor(), config.model, sampling, encode, prompt, tools, results, kwargs));
      var r := NewOpenAIProvider(config, sampling, client, decode, encode).model(
        n, GenerateCall(AText(prompt), ATools(tools), AResults(results), ExtraArgs(kwargs)));
      && (answer.Ok? ==> r == Ok(Normalised(answer.value, decode)))
      && (answer.Err? ==> r == Err(Exc(GenericException, "OpenAI API request failed: " + Str(answer.error))))
  {
    ChatModelAnswers(OpenAIFlavor(), config.model, sampling, client, decode, encode, n, prompt, tools, results, kwargs);
  }
}
