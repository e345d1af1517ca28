# llm-toolbridge core in Dafny

llm-toolbridge lets one set of tools (named functions with a parameter
schema) be offered to several LLM providers through one interface. This
project models its core and proves properties of the model:

- the two tool serialisers (`Tool.to_dict` of the package and of the older
  `src/core` copy) and `Tool.invoke`;
- the provider datatypes (`ToolCall`, `LLMResponse`, `ProviderConfig`) and
  the provider interface `generate`;
- the adapter base class (`process_tool_call`, `execute_with_tools`) and
  the OpenAI, Azure OpenAI and Gemini adapters;
- both `ToolBridge` versions: tool registration, tool resolution and the
  tool-calling loop, over a provider or an adapter;
- the `AdapterRegistry`, including `create_from_config`;
- the OpenAI and Azure OpenAI chat-completions transformations (messages,
  request parameters, tool formatting, tool-call parsing, response
  normalisation, error wrapping);
- the Gemini transformation (contents, function declarations, the
  generation configuration merge, tool-call parsing, error wrapping);
- the `.env` loader (`load_dotenv`, `get_env_var`);
- the configuration manager (`ToolBridgeConfig`, `load_config`,
  `get_provider_config`).

A Python `dict` is a `Common.Dict`: a sequence of pairs with unique keys.
`Common.Put` appends a new key and replaces an existing one in place, so
insertion order is kept and the last write wins. A tool's function, JSON
decoding and encoding, the SDK clients, the file system and the process
environment are parameters. A provider is a value whose `model(n, call)`
is its answer to the n-th request of a run. Methods that talk to a provider
also return the requests they sent.

Entities that the source updates in place are classes:
- `Bridge.ToolBridge` and `LegacyBridge.LegacyToolBridge` (the tool
  dictionary);
- `Registry.AdapterRegistry`;
- `Adapters.Request` (the request dictionary that `execute_request` pops);
- `EnvLoader.Environment` (`os.environ`).

Loops are methods proved against recursive specification functions.

## Model

| member | source | states |
|---|---|---|
| Tool.NewParameterDefinition | src/llm_toolbridge/core/tool.py:12-28 | a parameter definition defaults to required, with no enum and no default |
| Tool.NewTool | src/llm_toolbridge/core/tool.py:31-47 | a new tool has version "1.0.0" and no function |
| Tool.Invoke | src/llm_toolbridge/core/tool.py:101-117 | a tool without a function raises ValueError "Tool '<name>' has no associated function"; otherwise the result is the function's outcome on the arguments |
| Tool.Dump | src/llm_toolbridge/core/tool.py:85 | a definition dumps type, description, enum and default, in that order, and never "required" |
| Tool.ToDict | src/llm_toolbridge/core/tool.py:52-99 | the loop over the parameters builds exactly the schema the specification function describes |
| Tool.SchemaShape | src/llm_toolbridge/core/tool.py:59-69 | the schema has keys name, description, parameters; the parameter block is an object with additionalProperties false and one property per parameter |
| Tool.RequiredKeyPresence | src/llm_toolbridge/core/tool.py:96-97 | the block has a "required" key iff some parameter is required, and then it lists exactly the required names |
| Tool.NamesWhereMembership | src/llm_toolbridge/core/tool.py:71-93 | a name is in the required list iff some parameter of that name satisfies the rule |
| Tool.NamesWhereOrdered | src/llm_toolbridge/core/tool.py:71-93 | required names appear in parameter order |
| Tool.NoNullInProperties | src/llm_toolbridge/core/tool.py:74-90 | no property schema holds a None value |
| Tool.DefinitionSchema | src/llm_toolbridge/core/tool.py:84-93 | a definition's property has its type and description, its enum when set, its default when not None, and never "required" |
| Tool.RawSchemaKept | src/llm_toolbridge/core/tool.py:74-82 | a dict parameter keeps every non-None field and adds none |
| Tool.RequiredRule | src/llm_toolbridge/core/tool.py:81-92 | a definition is required iff its flag says so; a dict parameter iff "required" is absent, None or truthy |
| Tool.RequiredListSpec | src/llm_toolbridge/core/tool.py:71-97 | a name is in the required list iff it is a parameter and that parameter is required |
| LegacyTool.ToDict | src/core/tool.py:50-80 | the older serialiser's loop builds exactly its specification schema |
| LegacyTool.LegacyInvoke | src/core/tool.py:82-98 | no function gives ValueError; otherwise the function's outcome |
| LegacyTool.LegacyShape | src/core/tool.py:56-66 | the older schema carries the version, always has a "required" list of the required names, and has no additionalProperties |
| LegacyTool.DefaultVersion | src/core/tool.py:44 | a new tool serialises with version "1.0.0" |
| LegacyTool.LegacyProperties | src/core/tool.py:68-79 | dict parameters are copied as they are, and definitions dump all four fields, enum and default included even when None |
| LegacyTool.RequiredNullDiverges | src/core/tool.py:71 | a dict parameter whose "required" is None is required for the newer serialiser but not for the older one |
| LegacyTool.RequiredListsAgree | src/core/tool.py:68-79 | without that case, both serialisers list the same required names |
| ProviderInterface.NewToolCall | src/llm_toolbridge/core/provider.py:21-32 | a tool call has no call id unless one is given |
| ProviderInterface.NewLLMResponse | src/llm_toolbridge/core/provider.py:35-44 | a response defaults to no content and no tool calls |
| ProviderInterface.ResultKey | src/core/adapter.py:200 | a result is stored under the call id when it is non-empty, otherwise under the tool name |
| ProviderInterface.AccumulateLastWins | src/llm_toolbridge/core/bridge.py:152-164 | the last call with a given key decides the stored value |
| ProviderInterface.AccumulateUntouched | src/llm_toolbridge/core/bridge.py:152-164 | keys no call produces keep their earlier value |
| ProviderInterface.AccumulateKeeps | src/llm_toolbridge/core/bridge.py:152-164 | once stored, a key stays stored |
| ProviderInterface.AccumulateOnly | src/llm_toolbridge/core/bridge.py:152-164 | every stored key was there before or comes from a call |
| ProviderInterface.ExtraArgs | src/llm_toolbridge/core/provider.py:66-86 | keyword arguments are passed on one to one, in order |
| ProviderInterface.GenerateOutcome | src/llm_toolbridge/providers/gemini.py:65-96 | a Gemini failure is wrapped as RuntimeError "Gemini API error: ..."; other outcomes pass through unchanged |
| ProviderInterface.CallInputs | src/llm_toolbridge/core/provider.py:66-86 | a call is accepted iff the prompt is text, the tools and results have the expected types or are absent, and every extra is a value |
| AdapterBase.DefaultCapabilities | src/core/adapter.py:23-38 | by default every capability is off and there is no token limit |
| AdapterBase.ToolsByNameLast | src/core/adapter.py:183 | the tools dictionary maps each name to the last tool of that name |
| AdapterBase.ToolsByNameAbsent | src/core/adapter.py:183 | a name no tool has is absent from the dictionary |
| AdapterBase.ProcessToolCall | src/core/adapter.py:118-152 | an unknown tool, or a KeyError raised by the tool, gives the error "Tool '<name>' not found"; any other exception gives its message; success gives the result |
| AdapterBase.ProcessToolCallOutcome | src/core/adapter.py:137-152 | success is true iff the tool exists and its call succeeds, and then the record holds the result and no error; success is false iff there is an error |
| AdapterBase.ProcessToolCallNoFunction | src/core/adapter.py:137-152 | a registered tool without a function reports "Tool '<name>' has no associated function" |
| AdapterBase.Processed | src/core/adapter.py:198 | only the first max_tool_calls calls are processed |
| AdapterBase.RunRejectsBound | src/core/adapter.py:180-181 | max_tool_calls below 1 raises ValueError before any request |
| AdapterBase.RunSingleRound | src/core/adapter.py:188-196 | a first answer without tool calls is returned after one request |
| AdapterBase.RunFollowUp | src/core/adapter.py:198-210 | tool calls lead to exactly one follow-up request, without tools, carrying the non-empty results, and its answer is returned |
| AdapterBase.RunAtMostTwoRounds | src/core/adapter.py:154-214 | a run sends at most two requests, and the first is the prompt with the tools |
| AdapterBase.RunErrorsWrapped | src/core/adapter.py:212-214 | every failure is some request's error wrapped as RuntimeError "Tool execution failed: ..." |
| AdapterBase.ResultsKeys | src/core/adapter.py:198-202 | the results hold exactly the keys of the processed calls |
| AdapterBase.ResultsLastWins | src/core/adapter.py:198-202 | a key holds the record of the last call with that key |
| AdapterBase.ResultsTruncated | src/core/adapter.py:198-202 | calls beyond max_tool_calls leave no trace in the results |
| AdapterBase.Wrap | src/core/adapter.py:212-214 | errors become RuntimeError with the "Tool execution failed: " prefix |
| Adapters.Capabilities | src/llm_toolbridge/adapters/openai.py:39-52 | every adapter supports tool calling, multiple tools and vision but not streaming; the token limits are 8192 for OpenAI, 4096 for Azure and 32768 for Gemini |
| Adapters.UnpackPrepared | src/llm_toolbridge/adapters/openai.py:75-104 | popping a prepared request gives back the prompt, tools, results and extra arguments it was prepared from |
| Adapters.Unpack | src/llm_toolbridge/adapters/openai.py:97-99 | a request without "prompt" raises KeyError |
| Adapters.ProviderAdapter.constructor | src/llm_toolbridge/adapters/openai.py:24-37 | an adapter is built only around its own provider kind |
| Adapters.ProviderAdapter.PrepareRequest | src/llm_toolbridge/adapters/openai.py:54-81 | the request is prompt, tools and tool_results, then the extra arguments in order |
| Adapters.ProviderAdapter.ExecuteRequest | src/llm_toolbridge/adapters/openai.py:83-104 | the three fixed keys are popped, the provider gets them plus what is left, and what is left stays in the request |
| Adapters.ProviderAdapter.ParseResponse | src/llm_toolbridge/adapters/openai.py:106-120 | the provider's response passes through unchanged |
| Adapters.ProviderAdapter.GetCapabilities | src/llm_toolbridge/adapters/gemini.py:39-52 | the adapter reports its kind's capabilities |
| Adapters.ProviderAdapter.ExecuteWithTools | src/core/adapter.py:154-214 | for keyword arguments without tool_results, the adapter's run returns the answer and sends the requests of the run specification |
| Adapters.ProcessToolCalls | src/core/adapter.py:198-202 | the loop stores each processed call under its key, last write winning |
| Bridge.GetToolIn | src/llm_toolbridge/core/bridge.py:62-78 | a registered name gives its tool; an unknown one raises KeyError "No tool with name '<name>' is registered" |
| Bridge.RegisterAllRegistry | src/llm_toolbridge/core/bridge.py:49-60 | registering a list adds the tools in order up to the first duplicate |
| Bridge.RegisterAllOutcome | src/llm_toolbridge/core/bridge.py:44-45 | it succeeds iff every tool was added; otherwise it raises ValueError naming the first duplicate |
| Bridge.RegisterAllFinds | src/llm_toolbridge/core/bridge.py:49-78 | after a successful registration every listed tool can be looked up |
| Bridge.RegisterAllKeeps | src/llm_toolbridge/core/bridge.py:44-45 | registration never replaces an existing tool |
| Bridge.ResolveOne | src/llm_toolbridge/core/bridge.py:196-202 | a Tool is kept, a name is looked up, anything else raises TypeError "Expected Tool or str, got <type>" |
| Bridge.Resolve | src/llm_toolbridge/core/bridge.py:191-193 | no tool list means every registered tool, in registration order |
| Bridge.ResolveListSpec | src/llm_toolbridge/core/bridge.py:177-204 | resolution succeeds iff every entry resolves, keeps order and length, and otherwise fails with the first entry's error |
| Bridge.ResolveIn | src/llm_toolbridge/core/bridge.py:177-204 | the resolution loop computes the resolution specification |
| Bridge.StoredResult | src/llm_toolbridge/core/bridge.py:152-164 | a successful tool call stores its result; a failure stores {"error": str(e), "success": False} |
| Bridge.MissingToolRecord | src/llm_toolbridge/core/bridge.py:154-164 | an unknown tool stores the KeyError message in double quotes, its name escaped as repr escapes it |
| Common.QuoteRepr | src/llm_toolbridge/providers/gemini.py:338 | repr picks the quote, keeps plain text unchanged, and its escapes read back to the string (Common.ReprRoundTrip) |
| Bridge.FollowUp | src/llm_toolbridge/core/bridge.py:167-172 | a follow-up request repeats the prompt and the extra arguments and carries all results so far |
| Bridge.FollowUpsBound | src/llm_toolbridge/core/bridge.py:149-150 | at most max_tool_calls follow-up requests are sent |
| Bridge.FollowUpsFinal | src/llm_toolbridge/core/bridge.py:149 | the loop ends with an answer without tool calls or at the bound |
| Bridge.FollowUpsCumulative | src/llm_toolbridge/core/bridge.py:146-164 | each follow-up carries every result key the previous one carried |
| Bridge.ProviderRunBound | src/llm_toolbridge/core/bridge.py:140-175 | a run sends the first request, then at most max_tool_calls more, and a successful answer has no tool calls unless the bound was reached |
| Bridge.ProviderRunNoFollowUps | src/llm_toolbridge/core/bridge.py:149 | with max_tool_calls at most 0 only the first request is sent |
| Bridge.ProviderRunFollowUps | src/llm_toolbridge/core/bridge.py:167-172 | every later request has the prompt, the follow-up tools, the extras and results |
| Bridge.NewerRunShape | src/llm_toolbridge/core/bridge.py:140-172 | the package's bridge sends the tools first, and then follow-ups with an empty tool list and the same keyword arguments |
| Bridge.StoreResults | src/llm_toolbridge/core/bridge.py:152-164 | the inner loop stores each call's value under its key |
| Bridge.RunFollowUps | src/llm_toolbridge/core/bridge.py:146-175 | the while loop computes the follow-up specification |
| Bridge.RunProvider | src/llm_toolbridge/core/bridge.py:121-175 | the provider path computes the run specification |
| Bridge.ToolBridge.constructor | src/llm_toolbridge/core/bridge.py:24-32 | a bridge starts with no tools |
| Bridge.ToolBridge.RegisterTool | src/llm_toolbridge/core/bridge.py:34-47 | a duplicate name raises ValueError and changes nothing; otherwise the tool is appended and can be looked up |
| Bridge.ToolBridge.RegisterTools | src/llm_toolbridge/core/bridge.py:49-60 | the tool dictionary and outcome are those of the list registration |
| Bridge.ToolBridge.GetTool | src/llm_toolbridge/core/bridge.py:62-78 | a lookup in the bridge's own tools |
| Bridge.ToolBridge.ResolveTools | src/llm_toolbridge/core/bridge.py:177-204 | the bridge resolves against its own tools |
| Bridge.ToolBridge.ExecuteWithProvider | src/llm_toolbridge/core/bridge.py:121-175 | the provider path sends and returns what the run specification says |
| Bridge.ToolBridge.Execute | src/llm_toolbridge/core/bridge.py:80-119 | for keyword arguments without tool_results, a resolution error is raised before any request; with an adapter the adapter's run decides; with a provider the provider run decides |
| Bridge.ToolBridge.ExecuteSync | src/llm_toolbridge/core/bridge.py:206-235 | the same outcomes as Execute, under the same condition |
| LegacyBridge.LegacyRunShape | src/core/bridge.py:104-136 | the older bridge sends at most max_tool_calls follow-ups, every request carries the resolved tools and no extras, and only the first lacks results |
| LegacyBridge.LegacyToolBridge.constructor | src/core/bridge.py:23-31 | the older bridge starts with no tools |
| LegacyBridge.LegacyToolBridge.RegisterTool | src/core/bridge.py:33-46 | a duplicate raises ValueError and changes nothing; otherwise the tool is appended |
| LegacyBridge.LegacyToolBridge.RegisterTools | src/core/bridge.py:48-59 | list registration, stopping at the first duplicate |
| LegacyBridge.LegacyToolBridge.GetTool | src/core/bridge.py:61-77 | a lookup with KeyError for unknown names |
| LegacyBridge.LegacyToolBridge.ResolveTools | src/core/bridge.py:138-165 | resolution against the older bridge's tools |
| LegacyBridge.LegacyToolBridge.Execute | src/core/bridge.py:79-136 | a resolution error is raised before any request; otherwise the older run specification decides |
| LegacyBridge.LegacyToolBridge.ExecuteSync | src/core/bridge.py:167-184 | the same outcomes as Execute |
| Registry.AdapterClassIn | src/llm_toolbridge/core/adapter_registry.py:47-63 | a registered name gives its class; an unknown one raises KeyError "No adapter registered for provider '<name>'" |
| Registry.AdapterRegistry.constructor | src/llm_toolbridge/core/adapter_registry.py:27 | the registry starts empty |
| Registry.AdapterRegistry.Register | src/llm_toolbridge/core/adapter_registry.py:30-44 | a duplicate raises ValueError and changes nothing; otherwise the name maps to the class and no other name changes |
| Registry.AdapterRegistry.GetAdapterClass | src/llm_toolbridge/core/adapter_registry.py:47-63 | a lookup in the registry |
| Registry.AdapterRegistry.CreateAdapter | src/llm_toolbridge/core/adapter_registry.py:66-81 | an unknown name raises KeyError; a provider of the wrong kind raises TypeError; otherwise a new adapter wraps the provider |
| Registry.AdapterRegistry.CreateFromConfig | src/llm_toolbridge/core/adapter_registry.py:84-117 | with the intended class name (not the one line 107 derives, see Registry.ImportDerivedFails): an import failure becomes ImportError "Failed to import provider ..."; otherwise the outcome is create_adapter's |
| Registry.AdapterRegistry.GetAvailableProviders | src/llm_toolbridge/core/adapter_registry.py:120-127 | the copy names exactly the registered providers, with their classes |
| Registry.ImportProvider | src/llm_toolbridge/core/adapter_registry.py:101-117 | a missing module or class, or an ImportError or AttributeError from the constructor, becomes ImportError; other errors pass through |
| Registry.CapitalizeAll | src/llm_toolbridge/core/adapter_registry.py:107 | each word of the provider name is capitalised |
| Registry.DerivedNames | src/llm_toolbridge/core/adapter_registry.py:107 | the derived names are OpenaiProvider, AzureOpenaiProvider and GeminiProvider; only Gemini's matches its provider class |
| Registry.ImportDerivedFails | src/llm_toolbridge/core/adapter_registry.py:103-117 | with the derived name, create_from_config fails with ImportError for openai and azure_openai even when the module declares its provider |
| Registry.IntendedNames | src/llm_toolbridge/core/adapter_registry.py:107 | the corrected name of every shipped adapter is its provider's class name |
| Registry.ImportIntendedFinds | src/llm_toolbridge/core/adapter_registry.py:103-111 | with the corrected name every shipped provider is found and constructed |
| ChatCompletions.CallStep | src/llm_toolbridge/providers/openai.py:210-234 | only calls of type "function" are taken; they keep the name and id, and their arguments are the decoded object, or {"error": "Invalid JSON in arguments"} when decoding fails; a decoded non-object ends the parse |
| ChatCompletions.ParseToolCalls | src/llm_toolbridge/providers/openai.py:183-238 | the parsing loops compute the parse specification |
| ChatCompletions.CallsParseConverted | src/llm_toolbridge/providers/openai.py:210-234 | a parse is a prefix of the conversion of every call, and is all of it when nothing ends it |
| ChatCompletions.ParsedPrefix | src/llm_toolbridge/providers/openai.py:183-238 | the parsed calls are always a prefix of the converted calls of all choices |
| ChatCompletions.ParsedComplete | src/llm_toolbridge/providers/openai.py:183-238 | for a clean response, every function call of every choice is parsed, in order |
| ChatCompletions.Normalised | src/llm_toolbridge/providers/openai.py:240-284 | no choices gives "No response generated"; otherwise the first choice's content and the parsed tool calls |
| ChatCompletions.ParseResponse | src/llm_toolbridge/providers/openai.py:240-284 | the method computes the normalised response |
| ChatCompletions.FormattedTool | src/llm_toolbridge/providers/openai.py:170-176 | a tool becomes {"type": "function", "function": <its schema>} |
| ChatCompletions.FormatTools | src/llm_toolbridge/providers/openai.py:158-181 | one entry per tool, in order |
| ChatCompletions.Messages | src/llm_toolbridge/providers/openai.py:115-129 | the user prompt first, then one message per tool result |
| ChatCompletions.MessageForKey | src/llm_toolbridge/providers/openai.py:117-129 | each result appears as a message at its position |
| ChatCompletions.MessageFromResult | src/llm_toolbridge/providers/openai.py:117-129 | every later message comes from some result |
| ChatCompletions.BuildMessages | src/llm_toolbridge/providers/openai.py:115-129 | the loop builds those messages |
| ChatCompletions.RequestParams | src/llm_toolbridge/providers/openai.py:132-145 | temperature, max_tokens (default 800) and top_p come from kwargs or the defaults; tools and tool_choice (default "auto") are present iff there are tools |
| ChatCompletions.RequestShape | src/llm_toolbridge/providers/openai.py:111-145 | the request has the model, the prompt, the results in order and one formatted entry per tool |
| ChatCompletions.Generated | src/llm_toolbridge/providers/openai.py:147-156 | a client answer is normalised; a client failure raises Exception with the flavour's prefix |
| ChatCompletions.GenerateSync | src/llm_toolbridge/providers/openai.py:93-156 | the method computes that outcome |
| ChatCompletions.ChatModelAnswers | src/llm_toolbridge/providers/openai.py:68-156 | a provider built on the transformation answers a well-formed call with the normalised response or the prefixed failure |
| OpenAIChat.NewOpenAIConfig | src/llm_toolbridge/providers/openai.py:32-34 | the model defaults to "gpt-4" |
| OpenAIChat.ClientOptionsOf | src/llm_toolbridge/providers/openai.py:55-63 | organization and base_url are passed iff set and non-empty |
| OpenAIChat.OpenAIRequest | src/llm_toolbridge/providers/openai.py:115-181 | OpenAI requests answer results as "assistant" messages and serialise tools with the newer to_dict |
| OpenAIChat.OpenAIAnswer | src/llm_toolbridge/providers/openai.py:147-156 | OpenAI failures read "OpenAI API request failed: ..." |
| AzureChat.NewAzureOpenAIConfig | src/providers/azure_openai.py:35-36 | the API version defaults to "2023-12-01-preview" |
| AzureChat.AzureRequest | src/providers/azure_openai.py:112-174 | Azure requests use the deployment name as the model, answer results as "tool" messages and serialise tools with the older to_dict |
| AzureChat.AzureAnswer | src/providers/azure_openai.py:143-149 | Azure failures read "Azure OpenAI API request failed: ..." |
| GeminiGenAI.DirectArgs | src/llm_toolbridge/providers/gemini.py:302-320 | direct call arguments are the dict, the decoded object, or {"raw_args": text} when decoding fails |
| GeminiGenAI.ListedArgs | src/llm_toolbridge/providers/gemini.py:324-338 | listed call arguments are the dict, the object's attributes, the decoded object, or {"raw_args": repr} |
| GeminiGenAI.ParseToolCalls | src/llm_toolbridge/providers/gemini.py:288-370 | the parsing loops compute the parse specification |
| GeminiGenAI.GeminiIdsDistinct | src/llm_toolbridge/providers/gemini.py:318-366 | the call ids "gemini-direct-call", "gemini-function-i" and "gemini-part-i" of one response are all distinct |
| GeminiGenAI.ToolNameOf | src/llm_toolbridge/providers/gemini.py:133 | the tool name is the result key up to its first '-' |
| GeminiGenAI.ContentsAt | src/llm_toolbridge/providers/gemini.py:119-183 | the prompt comes first, then a model call and a user response per result, in order |
| GeminiGenAI.BuildContents | src/llm_toolbridge/providers/gemini.py:119-183 | the loop builds those contents |
| GeminiGenAI.ContentsAgree | src/llm_toolbridge/providers/gemini.py:145-175 | the code as written succeeds iff every result is truthy or a dict, and then agrees with the corrected contents |
| GeminiGenAI.NoneResultRaises | src/llm_toolbridge/providers/gemini.py:145-175 | as written, a None tool result raises AttributeError |
| GeminiGenAI.PayloadAgrees | src/llm_toolbridge/providers/gemini.py:145-175 | the as-written payload fails exactly on falsy non-dict values and otherwise equals the corrected one |
| GeminiGenAI.DeclarationOf | src/llm_toolbridge/providers/gemini.py:236-286 | a declaration keeps the name and description, has one property per parameter without "default", and lists the required parameters |
| GeminiGenAI.DeclarationHasNoDefaults | src/llm_toolbridge/providers/gemini.py:271-273 | no property of a declaration has a default |
| GeminiGenAI.Declare | src/llm_toolbridge/providers/gemini.py:255-283 | the per-tool loop computes the declaration |
| GeminiGenAI.FormatTools | src/llm_toolbridge/providers/gemini.py:236-286 | one declaration per tool, in order |
| GeminiGenAI.NewGeminiConfig | src/llm_toolbridge/providers/gemini.py:24-38 | the model defaults to "gemini-2.0-pro", calling mode to AUTO, no generation config |
| GeminiGenAI.BaseGeneration | src/llm_toolbridge/providers/gemini.py:117 | the configured generation config, or an empty one |
| GeminiGenAI.MergeLookup | src/llm_toolbridge/providers/gemini.py:207-216 | in the merged generation config a call's own entry wins over the configured one |
| GeminiGenAI.RestrictLookup | src/llm_toolbridge/providers/gemini.py:207-216 | with tools, only the fields the SDK config has are set |
| GeminiGenAI.GeminiRequestShape | src/llm_toolbridge/providers/gemini.py:186-216 | the request has the model, the contents, tools with the configured mode iff there are tools, and the generation fields |
| GeminiGenAI.GeminiAnswer | src/llm_toolbridge/providers/gemini.py:222-230 | the answer's content is the response text, with no calls when there are none, and distinct call ids |
| GeminiGenAI.GeminiGenerated | src/llm_toolbridge/providers/gemini.py:98-234 | with the corrected contents (see GeminiGenAI.NoneResultRaises): a non-mapping generation_config raises TypeError; otherwise the client's answer is parsed or its error wrapped as "Gemini API error: ..." |
| GeminiGenAI.ApplyFields | src/llm_toolbridge/providers/gemini.py:214-216 | the setattr loop keeps exactly the known fields |
| GeminiGenAI.GenerateSync | src/llm_toolbridge/providers/gemini.py:98-234 | the method computes that outcome, with the corrected contents |
| GeminiGenAI.NewGeminiProvider | src/llm_toolbridge/providers/gemini.py:49-63 | the provider is of the Gemini kind and answers with the transformation |
| GeminiGenAI.GeminiProviderAnswers | src/llm_toolbridge/providers/gemini.py:65-96 | with the corrected contents, through generate, an answer gives the parsed response and a client failure reads "Gemini API error: Gemini API error: ..." |
| EnvLoader.Unquote | src/utils/env_loader.py:58-60 | a value quoted on both ends with the same quote loses them; others are kept |
| EnvLoader.ParseLine | src/utils/env_loader.py:46-60 | blank lines, comments and lines without '=' define nothing |
| EnvLoader.ParseLineSplits | src/utils/env_loader.py:52-60 | a definition splits the stripped line at its first '=', strips both sides and unquotes the value |
| EnvLoader.PlainLineRoundTrip | src/utils/env_loader.py:46-60 | "KEY=value" parses back to the key and value |
| EnvLoader.QuotedLineRoundTrip | src/utils/env_loader.py:46-60 | KEY="value" parses back to the key and the unquoted value |
| EnvLoader.SetError | src/utils/env_loader.py:63 | setting the environment fails with ValueError iff the key is empty or a NUL appears |
| EnvLoader.Environment.Set | src/utils/env_loader.py:63 | a valid assignment updates the variable; an invalid one changes nothing |
| EnvLoader.Environment.Get | src/utils/env_loader.py:69-80 | a set variable gives its value, otherwise the default |
| EnvLoader.LoadLine | src/utils/env_loader.py:44-64 | each definition sets a variable, and the first failure stops the loading |
| EnvLoader.FileLastWins | src/utils/env_loader.py:44-64 | the last definition of a key decides its value |
| EnvLoader.FileOnly | src/utils/env_loader.py:44-64 | every loaded key comes from a line of the file |
| EnvLoader.LoadAllStopsAt | src/utils/env_loader.py:63 | once a definition fails, later lines change nothing |
| EnvLoader.FirstExisting | src/utils/env_loader.py:29-37 | the first path that exists, or none |
| EnvLoader.DotenvFile | src/utils/env_loader.py:29-40 | a given path is used iff it exists |
| EnvLoader.DotenvSearchOrder | src/utils/env_loader.py:29-37 | without a path, the .env of the working directory, its parent and its grandparent are tried in that order |
| EnvLoader.FindDotenv | src/utils/env_loader.py:29-37 | the search loop finds that file |
| EnvLoader.ReadLines | src/utils/env_loader.py:44-66 | the environment gains the loaded variables, and the result is them or the first error |
| EnvLoader.LoadDotenv | src/utils/env_loader.py:13-66 | an empty path raises FileNotFoundError; no file gives an empty result and no change; otherwise the file is loaded, and every returned variable can be read back |
| Config.DefaultConfig | src/core/config.py:26-29 | no default provider, no provider configurations, log level "INFO", no cache directory |
| Config.DefaultPaths | src/core/config.py:35-42 | the working directory's file, the home directory's, then LLM_TOOLBRIDGE_CONFIG or "" |
| Config.PathsToTry | src/core/config.py:59 | a non-empty given path alone, otherwise the defaults |
| Config.TryPath | src/core/config.py:62-72 | empty or missing paths and I/O or JSON errors move on; anything else ends the search |
| Config.LoadFromFirst | src/core/config.py:59-72 | the first path that does not move on decides the result |
| Config.LoadFromDefault | src/core/config.py:75 | when every path moves on, the default configuration is returned |
| Config.ExplicitPathOnly | src/core/config.py:59-75 | with an explicit path, only that file is consulted |
| Config.LoadConfig | src/core/config.py:45-75 | the loop computes the search |
| Config.ProviderEntry | src/core/config.py:114-117 | a configured provider gives its entry; otherwise KeyError "No configuration found for provider '<name>'" |
| Config.GetProviderConfig | src/core/config.py:97-117 | the given configuration or the loaded one is consulted; a loading error passes through |
| Config.NoFileNoProvider | src/core/config.py:97-117 | with nothing to load, every provider is unknown |

## Left out

- I/O, asyncio, the SDK and HTTP clients, logging and `print` are not modelled. Clients, JSON decoding and encoding, the file system and the environment are parameters.
- The sampling defaults (temperature, top_p) are floating point. They are held opaque in `ChatCompletions.Sampling`.
- The Gemini `_candidate_dict` manual fallback (call ids "gemini-manual-<i>", src/llm_toolbridge/providers/gemini.py:372-395) is not modelled: it reads undocumented SDK internals.
- The `hasattr(response, "text")` fallback to "" is not modelled. The response text is an optional field of `GResponse`.
- Pydantic and SDK validation is not modelled: `ToolBridgeConfig(**data)` and `GenerateContentConfig(**generation)` are a parameter or pass through.
- Which attributes the SDK config has (`hasattr` before `setattr`) is the parameter `isField`.
- src/core/provider.py is not part of this model.
- ProviderInterface.CallInputs: argument shapes outside the modelled types answer a TypeError "unsupported arguments". Python's own messages for those cases are not reproduced.
- ChatCompletions.Normalised: the `except` branch of `_parse_response` is unreachable for the modelled response shapes and is not modelled.
- Text.Capitalize: capitalises ASCII letters only. Python's `str.capitalize` is Unicode-aware.
- Directories, path normalisation and `Path.parent` are not modelled. The parent of a directory is a parameter of `EnvLoader.FileSystem`. A `.env` path that names a directory, which the source finds existing and then fails to open, is not represented: `EnvLoader.FileSystem` holds files only. The empty path is modelled.
- Config.TryPath: Python's message for `ToolBridgeConfig(**x)` with a non-mapping is approximated by `NotMappingMessage`.
- UnicodeDecodeError while reading a file is not modelled.
- `save_config` and src/core/schema.py are outside the modelled core.
- Registry.AdapterRegistry.CreateFromConfig: imports the intended class names "OpenAIProvider" and "AzureOpenAIProvider". As written, line 107 of src/llm_toolbridge/core/adapter_registry.py derives "OpenaiProvider" and "AzureOpenaiProvider", so `create_from_config` for "openai" or "azure_openai" raises ImportError. The method does not promise that outcome; Registry.ImportDerivedFails states it.
- GeminiGenAI.GeminiGenerated, GeminiGenAI.GenerateSync and GeminiGenAI.GeminiProviderAnswers: build the request from the corrected contents. As written, a tool result that is falsy and not a dict (None, 0, "", [], False) raises AttributeError at src/llm_toolbridge/providers/gemini.py:164 before any request. Through `generate` that reads "Gemini API error: '<type>' object has no attribute 'get'". The model sends {"error": "Unknown error"} instead. For every other set of results the two agree (GeminiGenAI.ContentsAgree), and GeminiGenAI.NoneResultRaises states the error.
- Adapters.ProviderAdapter.ExecuteWithTools, Bridge.ToolBridge.Execute and Bridge.ToolBridge.ExecuteSync: require that the keyword arguments hold no "tool_results" (Python itself binds "prompt" and "tools" to the named parameters). Python accepts "tool_results" there; the first request then carries it as `tool_results`, and the follow-up raises TypeError "multiple values for argument 'tool_results'". The adapter path wraps that error as RuntimeError "Tool execution failed: ..."; the provider path raises it as it is. That case is not modelled.
- Registry.AdapterRegistry.Register and Registry.AdapterRegistry.CreateAdapter: the adapter classes are the closed set `AdapterKind` (OpenAI, Azure OpenAI, Gemini), each with its own provider check. Python's `register` takes any adapter class, such as a user adapter that accepts every provider; such classes are not modelled.
- Common.QuoteRepr: escapes backslashes, the chosen quote, newline, carriage return, tab and the other ASCII controls as Python does. Characters above U+007F that Python counts as not printable (for example U+0080 to U+00A0 and U+2028) are kept as they are: that needs the Unicode database.
- EnvLoader.SetError: follows CPython's `putenv` checks (empty name, NUL). Other platform limits are not modelled.

## Findings

| source | as written | input that shows it | evidently intended | confidence | as-written member | corrected member |
|---|---|---|---|---|---|---|
| src/llm_toolbridge/core/adapter_registry.py:107 | the provider class name is derived by capitalising each underscore-separated word, giving "OpenaiProvider" and "AzureOpenaiProvider" | `create_from_config("openai", config)` with the module declaring only `OpenAIConfig` and `OpenAIProvider` fails with ImportError | the declared class names "OpenAIProvider" and "AzureOpenAIProvider" | not executed | Registry.ImportDerivedFails | Registry.ImportIntendedFinds |
| src/llm_toolbridge/providers/gemini.py:145-175 | a tool result that is neither a dict nor truthy reaches `result_data.get(...)` | a tool result of None (or 0, "" or []) raises AttributeError "'NoneType' object has no attribute 'get'" before the request is sent | the else branch's own fallback: the result is sent as {"error": "Unknown error"} | not executed | GeminiGenAI.NoneResultRaises | GeminiGenAI.BuildContents |
