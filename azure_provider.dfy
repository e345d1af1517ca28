/** The Azure OpenAI provider (src/providers/azure_openai.py): the
    chat-completions model with result messages in the "tool" role, the
    older tool serialiser of src/core/tool.py, and the deployment name as
    the request's model. */
module AzureChat {

  import opened Common
  import opened Tool
  import opened LegacyTool
  import opened ProviderInterface
  import opened ChatCompletions

  /** `AzureOpenAIConfig`. */
  datatype AzureOpenAIConfig = AzureOpenAIConfig(apiKey: string, endpoint: string, deploymentName: string,
                                                 apiVersion: string, organization: Option<string>)

  /** `AzureOpenAIConfig(...)` with the fields left out given as `None`: the
      API version defaults to "2023-12-01-preview". */
  function NewAzureOpenAIConfig(apiKey: string, endpoint: string, deploymentName: string,
                                apiVersion: Option<string>, organization: Option<string>): (c: AzureOpenAIConfig)
    ensures c.apiVersion == (if apiVersion.Some? then apiVersion.value else "2023-12-01-preview")
    ensures c.apiKey == apiKey && c.endpoint == endpoint && c.deploymentName == deploymentName
    ensures c.organization == organization
  {
    AzureOpenAIConfig(apiKey, endpoint, deploymentName,
                      if apiVersion.Some? then apiVersion.value else "2023-12-01-preview", organization)
  }

  function AzureFlavor(): Flavor {
    Flavor("tool", LegacySchema, "Azure OpenAI API request failed: ")
  }

  /** `AzureOpenAIProvider(config)` over a client that answers the n-th
      request of a run with `client(n, request)`. */
  function NewAzureProvider(config: AzureOpenAIConfig, sampling: Sampling, client: (nat, ChatRequest) -> Result<RawResponse>,
                            decode: JsonDecode, encode: Value -> string): (p: Provider)
    ensures p.kind == AzureOpenAIProviderKind
  {
    Provider(AzureOpenAIProviderKind, ChatModel(AzureFlavor(), config.deploymentName, sampling, client, decode, encode))
  }

  /** The request the Azure provider sends carries the deployment name as its model,
      the prompt followed by one "tool" message per tool result, and, when
      there are tools, each tool serialised by the older `to_dict`. */
  lemma AzureRequest(config: AzureOpenAIConfig, sampling: Sampling, encode: Value -> string,
                      prompt: string, tools: seq<Tool>, results: Dict<Value>, kwargs: Dict<Value>)
    ensures var req := Request(AzureFlavor(), config.deploymentName, sampling, encode, prompt, tools, results, kwargs);
      && req.model == config.deploymentName
      && req.messages[0] == UserMessage(prompt)
      && (forall i | 0 <= i < |results| ::
            req.messages[1 + i] == ResultMessage("tool", results[i].0, results[i].1, encode))
      && (req.tools.Some? <==> tools != [])
      && (forall i | 0 <= i < |tools| && req.tools.Some? ::
            Lookup(req.tools.value[i].entries, "function") == Some(VDict(LegacySchema(tools[i]))))
  {
    RequestShape(AzureFlavor(), config.deploymentName, sampling, encode, prompt, tools, results, kwargs);
  }

  /** The Azure provider answers a request of the adapters' shape with the
      normalised response, and a failure of the client with a generic
      exception carrying its prefix. */
  lemma AzureAnswer(config: AzureOpenAIConfig, sampling: Sampling, client: (nat, ChatRequest) -> Result<RawResponse>,
                     decode: JsonDecode, encode: Value -> string, n: nat,
                     prompt: string, tools: seq<Tool>, results: Dict<Value>, kwargs: Dict<Value>)
    ensures var answer := client(n, Request(AzureFlavor(), config.deploymentName, sampling, encode, prompt, tools, results, kwargs));
      var r := NewAzureProvider(config, sampling, client, decode, encode).model(
        n, GenerateCall(AText(prompt), ATools(tools), AResults(results), ExtraArgs(kwargs)));
      && (answer.Ok? ==> r == Ok(Normalised(answer.value, decode)))
      && (answer.Err? ==> r == Err(Exc(GenericException, "Azure OpenAI API request failed: " + Str(answer.error))))
  {
    ChatModelAnswers(AzureFlavor(), config.deploymentName, sampling, client, decode, encode, n, prompt, tools, results, kwargs);
  }
}
