/** The adapter registry (src/llm_toolbridge/core/adapter_registry.py): a
    dictionary from provider names to adapter classes, with duplicate
    rejection, lookups that raise `KeyError`, adapter construction, and the
    creation of a provider from a configuration through a module and class
    name derived from the provider name. */
module Registry {

  import opened Common
  import opened Text
  import opened ProviderInterface
  import opened Adapters

  function DuplicateAdapterMessage(name: string): string {
    "Adapter for provider '" + name + "' is already registered"
  }

  function UnregisteredMessage(name: string): string {
    "No adapter registered for provider '" + name + "'"
  }

  /** `get_adapter_class(provider_name)` over a registry dictionary. */
  function AdapterClassIn(registry: Dict<AdapterKind>, name: string): (r: Result<AdapterKind>)
    ensures r.Ok? <==> HasKey(registry, name)
    ensures r.Ok? ==> Lookup(registry, name) == Some(r.value)
    ensures r.Err? ==> r.error == Exc(KeyError, UnregisteredMessage(name))
  {
    match Lookup(registry, name)
    case Some(c) => Ok(c)
    case None => Err(Exc(KeyError, UnregisteredMessage(name)))
  }

  // ---------------------------------------------------------------------------
  // Deriving the provider module and class from a provider name
  // ---------------------------------------------------------------------------

  /** `''.join(parts)`. */
  function ConcatAll(parts: seq<string>): string {
    if parts == [] then "" else parts[0] + ConcatAll(parts[1..])
  }

  function CapitalizeAll(words: seq<string>): (r: seq<string>)
    ensures |r| == |words|
    ensures forall i | 0 <= i < |words| :: r[i] == Capitalize(words[i])
  {
    seq(|words|, i requires 0 <= i < |words| => Capitalize(words[i]))
  }

  /** `f"src.providers.{provider_name}"`. */
  function ModulePath(name: string): string {
    "src.providers." + name
  }

  /** The class name `create_from_config` looks for: every `_`-separated
      segment capitalised (first letter upper case, the rest lower case),
      joined, then `Provider`. */
  function DerivedClassName(name: string): string {
    ConcatAll(CapitalizeAll(Split(name, '_'))) + "Provider"
  }

  /** The name each shipped adapter is registered under
      (src/llm_toolbridge/adapters/__init__.py). */
  function RegisteredName(kind: AdapterKind): string {
    match kind
    case OpenAIAdapterKind => "openai"
    case AzureOpenAIAdapterKind => "azure_openai"
    case GeminiAdapterKind => "gemini"
  }

  /** The name of each provider class as its module declares it. */
  function ProviderClassName(kind: ProviderKind): string {
    match kind
    case OpenAIProviderKind => "OpenAIProvider"
    case AzureOpenAIProviderKind => "AzureOpenAIProvider"
    case GeminiProviderKind => "GeminiProvider"
    case OtherProvider(name) => name
  }

  lemma SplitNone(s: string, c: char)
    requires c !in s
    ensures Split(s, c) == [s]
  {
  }

  lemma SplitTwo(a: string, b: string, c: char)
    requires c !in a && c !in b
    ensures Split(a + [c] + b, c) == [a, b]
  {
    var s := a + [c] + b;
    assert s[..|a|] == a && s[|a| + 1..] == b;
    assert IndexOf(s, c) == Some(|a|);
  }

  /** A name without `_` gives its capitalised self plus `Provider`. */
  lemma DerivedOne(a: string)
    requires '_' !in a
    ensures DerivedClassName(a) == Capitalize(a) + "Provider"
  {
    SplitNone(a, '_');
    assert CapitalizeAll([a]) == [Capitalize(a)];
    assert ConcatAll([Capitalize(a)]) == Capitalize(a);
  }

  /** A name of two segments gives both capitalised plus `Provider`. */
  lemma DerivedTwo(a: string, b: string)
    requires '_' !in a && '_' !in b
    ensures DerivedClassName(a + ['_'] + b) == Capitalize(a) + Capitalize(b) + "Provider"
  {
    SplitTwo(a, b, '_');
    var caps := [Capitalize(a), Capitalize(b)];
    assert CapitalizeAll([a, b]) == caps;
    assert caps[1..] == [Capitalize(b)];
    assert ConcatAll([Capitalize(b)]) == Capitalize(b) by {
      assert [Capitalize(b)][1..] == [];
    }
  }

  lemma CapitalizedAzure()
    ensures Capitalize("azure") == "Azure"
  {
  }

  lemma CapitalizedOpenAI()
    ensures Capitalize("openai") == "Openai"
  {
  }

  lemma CapitalizedGemini()
    ensures Capitalize("gemini") == "Gemini"
  {
  }

  lemma DerivedOpenAI()
    ensures DerivedClassName("openai") == "OpenaiProvider"
  {
    DerivedOne("openai");
    CapitalizedOpenAI();
  }

  lemma DerivedGemini()
    ensures DerivedClassName("gemini") == "GeminiProvider"
  {
    DerivedOne("gemini");
    CapitalizedGemini();
  }

  lemma AzureSpelled()
    ensures "Azure" + "Openai" + "Provider" == "AzureOpenaiProvider"
  {
  }

  lemma DerivedAzure()
    ensures DerivedClassName("azure_openai") == "AzureOpenaiProvider"
  {
    assert "azure_openai" == "azure" + ['_'] + "openai";
    DerivedTwo("azure", "openai");
    CapitalizedAzure();
    CapitalizedOpenAI();
    AzureSpelled();
  }

  lemma Misspelled()
    ensures "AzureOpenaiProvider" != "AzureOpenAIProvider"
    ensures "OpenaiProvider" != "OpenAIProvider"
  {
  }

  /** The names `create_from_config` derives for the shipped adapters:
      "OpenaiProvider" and "AzureOpenaiProvider" are not the classes the
      provider modules declare; only Gemini's matches. */
  lemma DerivedNames()
    ensures DerivedClassName("openai") == "OpenaiProvider"
    ensures DerivedClassName("azure_openai") == "AzureOpenaiProvider"
    ensures DerivedClassName("gemini") == "GeminiProvider"
    ensures DerivedClassName(RegisteredName(OpenAIAdapterKind)) != ProviderClassName(OpenAIProviderKind)
    ensures DerivedClassName(RegisteredName(AzureOpenAIAdapterKind)) != ProviderClassName(AzureOpenAIProviderKind)
    ensures DerivedClassName(RegisteredName(GeminiAdapterKind)) == ProviderClassName(GeminiProviderKind)
  {
    DerivedOpenAI();
    DerivedAzure();
    DerivedGemini();
    Misspelled();
  }

  /** The segment evidently intended: capitalised, except the vendor's own
      spelling of "openai". */
  function IntendedSegment(w: string): string {
    if w == "openai" then "OpenAI" else Capitalize(w)
  }

  /** Each word turned into its intended segment, in order. */
  function IntendedAll(words: seq<string>): (r: seq<string>)
    ensures |r| == |words|
    ensures forall i | 0 <= i < |words| :: r[i] == IntendedSegment(words[i])
  {
    if words == [] then [] else [IntendedSegment(words[0])] + IntendedAll(words[1..])
  }

  /** The class name evidently intended. */
  function IntendedClassName(name: string): string {
    ConcatAll(IntendedAll(Split(name, '_'))) + "Provider"
  }

  lemma IntendedOne(a: string)
    requires '_' !in a
    ensures IntendedClassName(a) == IntendedSegment(a) + "Provider"
  {
    SplitNone(a, '_');
    assert IntendedAll([a]) == [IntendedSegment(a)];
    assert ConcatAll([IntendedSegment(a)]) == IntendedSegment(a);
  }

  lemma IntendedTwo(a: string, b: string)
    requires '_' !in a && '_' !in b
    ensures IntendedClassName(a + ['_'] + b) == IntendedSegment(a) + IntendedSegment(b) + "Provider"
  {
    SplitTwo(a, b, '_');
    var parts := [IntendedSegment(a), IntendedSegment(b)];
    assert [a, b][1..] == [b];
    assert IntendedAll([a, b]) == parts;
    assert parts[1..] == [IntendedSegment(b)];
    assert ConcatAll([IntendedSegment(b)]) == IntendedSegment(b) by {
      assert [IntendedSegment(b)][1..] == [];
    }
  }

  lemma IntendedAzureSpelled()
    ensures IntendedSegment("azure") == "Azure"
    ensures "Azure" + "OpenAI" + "Provider" == "AzureOpenAIProvider"
  {
    CapitalizedAzure();
  }

  lemma OpenAISegment()
    ensures IntendedSegment("openai") == "OpenAI"
  {
  }

  lemma OpenAIProviderSpelled()
    ensures "OpenAI" + "Provider" == "OpenAIProvider"
  {
  }

  lemma IntendedOpenAI()
    ensures IntendedClassName("openai") == "OpenAIProvider"
  {
    IntendedOne("openai");
    OpenAISegment();
    OpenAIProviderSpelled();
  }

  lemma IntendedGemini()
    ensures IntendedClassName("gemini") == "GeminiProvider"
  {
    IntendedOne("gemini");
    CapitalizedGemini();
  }

  lemma IntendedAzure()
    ensures IntendedClassName("azure_openai") == "AzureOpenAIProvider"
  {
    assert "azure_openai" == "azure" + ['_'] + "openai";
    IntendedTwo("azure", "openai");
    IntendedAzureSpelled();
  }

  /** The corrected derivation names the class each shipped provider module
      declares, for every shipped adapter. */
  lemma IntendedNames(kind: AdapterKind)
    ensures IntendedClassName(RegisteredName(kind)) == ProviderClassName(RequiredProvider(kind))
  {
    match kind
    case OpenAIAdapterKind => IntendedOpenAI();
    case GeminiAdapterKind => IntendedGemini();
    case AzureOpenAIAdapterKind => IntendedAzure();
  }

  // ---------------------------------------------------------------------------
  // Importing the provider
  // ---------------------------------------------------------------------------

  /** A provider class: constructing it from a configuration gives a
      provider or raises. */
  type ProviderClass = ProviderConfig -> Result<Provider>

  /** What `importlib.import_module` and `getattr` can reach: every
      importable module path with the classes it declares. */
  type Modules = Dict<Dict<ProviderClass>>

  /** `ImportError(f"Failed to import provider '{provider_name}': {e}")`. */
  function ImportFailure(name: string, detail: string): Exc {
    Exc(ImportError, "Failed to import provider '" + name + "': " + detail)
  }

  /** The `try` block of `create_from_config` up to the provider instance:
      import `src.providers.<name>`, take the class called `className` from
      it and construct it. An `ImportError` or `AttributeError` raised on the
      way becomes the `ImportError` above; any other exception passes
      through. */
  function ImportProvider(modules: Modules, name: string, className: string, config: ProviderConfig)
    : (r: Result<Provider>)
    ensures !HasKey(modules, ModulePath(name)) ==>
      r == Err(ImportFailure(name, "No module named '" + ModulePath(name) + "'"))
    ensures HasKey(modules, ModulePath(name)) && !HasKey(Lookup(modules, ModulePath(name)).value, className) ==>
      r == Err(ImportFailure(name, "module '" + ModulePath(name) + "' has no attribute '" + className + "'"))
    ensures HasKey(modules, ModulePath(name)) && HasKey(Lookup(modules, ModulePath(name)).value, className) ==>
      var made := Lookup(Lookup(modules, ModulePath(name)).value, className).value(config);
      if made.Err? && (made.error.kind == ImportError || made.error.kind == AttributeError)
      then r == Err(ImportFailure(name, Str(made.error)))
      else r == made
  {
    match Lookup(modules, ModulePath(name))
    case None => Err(ImportFailure(name, "No module named '" + ModulePath(name) + "'"))
    case Some(classes) =>
      match Lookup(classes, className)
      case None => Err(ImportFailure(name, "module '" + ModulePath(name) + "' has no attribute '" + className + "'"))
      case Some(ctor) =>
        match ctor(config)
        case Ok(p) => Ok(p)
        case Err(e) =>
          if e.kind == ImportError || e.kind == AttributeError then Err(ImportFailure(name, Str(e)))
          else Err(e)
  }

  /** Modules laid out as the repository intends: the module of each shipped
      adapter's name declares its provider class under the class's own name,
      and that class constructs from `config`. */
  predicate ProvidesClass(modules: Modules, kind: AdapterKind, config: ProviderConfig) {
    var path := ModulePath(RegisteredName(kind));
    HasKey(modules, path)
    && Lookup(Lookup(modules, path).value, ProviderClassName(RequiredProvider(kind))).Some?
    && Lookup(Lookup(modules, path).value, ProviderClassName(RequiredProvider(kind))).value(config).Ok?
  }

  /** The classes the provider module of each shipped adapter declares. */
  function DeclaredClasses(kind: AdapterKind): seq<string> {
    match kind
    case OpenAIAdapterKind => ["OpenAIConfig", "OpenAIProvider"]
    case AzureOpenAIAdapterKind => ["AzureOpenAIConfig", "AzureOpenAIProvider"]
    case GeminiAdapterKind => ["GeminiConfig", "GeminiProvider"]
  }

  lemma OpenAINotDeclared()
    ensures "OpenaiProvider" !in DeclaredClasses(OpenAIAdapterKind)
  {
  }

  lemma AzureNotDeclared()
    ensures "AzureOpenaiProvider" !in DeclaredClasses(AzureOpenAIAdapterKind)
  {
  }

  lemma DerivedNotDeclared(kind: AdapterKind)
    requires kind != GeminiAdapterKind
    ensures DerivedClassName(RegisteredName(kind)) !in DeclaredClasses(kind)
  {
    if kind == OpenAIAdapterKind {
      DerivedOpenAI();
      OpenAINotDeclared();
    } else {
      DerivedAzure();
      AzureNotDeclared();
    }
  }

  /** As written, `create_from_config("openai", ...)` and
      `create_from_config("azure_openai", ...)` fail with `ImportError` even
      when the module declares its provider class: the derived name is
      none of the classes the module declares. */
  lemma ImportDerivedFails(modules: Modules, kind: AdapterKind, config: ProviderConfig)
    requires kind != GeminiAdapterKind
    requires ProvidesClass(modules, kind, config)
    requires forall k | HasKey(Lookup(modules, ModulePath(RegisteredName(kind))).value, k) :: k in DeclaredClasses(kind)
    ensures ImportProvider(modules, RegisteredName(kind), DerivedClassName(RegisteredName(kind)), config).Err?
    ensures ImportProvider(modules, RegisteredName(kind), DerivedClassName(RegisteredName(kind)), config).error.kind
      == ImportError
  {
    DerivedNotDeclared(kind);
  }

  /** With the corrected name, every shipped adapter's provider is found and
      constructed. */
  lemma ImportIntendedFinds(modules: Modules, kind: AdapterKind, config: ProviderConfig)
    requires ProvidesClass(modules, kind, config)
    ensures var r := ImportProvider(modules, RegisteredName(kind), IntendedClassName(RegisteredName(kind)), config);
      var path := ModulePath(RegisteredName(kind));
      r.Ok? && r == Lookup(Lookup(modules, path).value, ProviderClassName(RequiredProvider(kind))).value(config)
  {
    IntendedNames(kind);
  }

  // ---------------------------------------------------------------------------
  // The registry
  // ---------------------------------------------------------------------------

  class AdapterRegistry {
    var registry: Dict<AdapterKind>

    /** The class-level dictionary starts empty. */
    constructor ()
      ensures registry == []
    {
      registry := [];
    }

    /** `register(provider_name, adapter_class)`. */
    method Register(name: string, adapterClass: AdapterKind) returns (r: Result<()>)
      modifies this
      ensures HasKey(old(registry), name) ==>
        r == Err(Exc(ValueError, DuplicateAdapterMessage(name))) && registry == old(registry)
      ensures !HasKey(old(registry), name) ==>
        r == Ok(()) && registry == old(registry) + [(name, adapterClass)]
      ensures r.Ok? ==> GetAdapterClass(name) == Ok(adapterClass)
      ensures forall other | other != name :: GetAdapterClass(other) == old(GetAdapterClass(other))
    {
      if HasKey(registry, name) {
        return Err(Exc(ValueError, DuplicateAdapterMessage(name)));
      }
      registry := Put(registry, name, adapterClass);
      r := Ok(());
    }

    /** `get_adapter_class(provider_name)`. */
    function GetAdapterClass(name: string): (r: Result<AdapterKind>)
      reads this
      ensures r == AdapterClassIn(registry, name)
    {
      AdapterClassIn(registry, name)
    }

    /** `create_adapter(provider_name, provider)`: look the class up, then
        construct it around the provider. */
    method CreateAdapter(name: string, provider: Provider) returns (r: Result<ProviderAdapter>)
      ensures GetAdapterClass(name).Err? ==> r == Err(GetAdapterClass(name).error)
      ensures GetAdapterClass(name).Ok? ==>
        var kind := GetAdapterClass(name).value;
        (r.Ok? <==> provider.kind == RequiredProvider(kind))
        && (r.Err? ==> r.error == Exc(TypeError, WrongProviderMessage(kind)))
        && (r.Ok? ==> fresh(r.value) && r.value.kind == kind && r.value.provider == provider)
    {
      var adapterClass := GetAdapterClass(name);
      if adapterClass.Err? {
        return Err(adapterClass.error);
      }
      r := ProviderAdapter.Create(adapterClass.value, provider);
    }

    /** `create_from_config(provider_name, config)`, importing from
        `modules`: the provider is created under the class name the
        repository evidently intends (the derived name misses the OpenAI
        classes; see `ImportDerivedFails`), then handed to `create_adapter`,
        whose `KeyError` and `TypeError` pass through. */
    method CreateFromConfig(name: string, config: ProviderConfig, modules: Modules)
      returns (r: Result<ProviderAdapter>)
      ensures ImportProvider(modules, name, IntendedClassName(name), config).Err? ==>
        r == Err(ImportProvider(modules, name, IntendedClassName(name), config).error)
      ensures ImportProvider(modules, name, IntendedClassName(name), config).Ok? && GetAdapterClass(name).Err? ==>
        r == Err(GetAdapterClass(name).error)
      ensures ImportProvider(modules, name, IntendedClassName(name), config).Ok? && GetAdapterClass(name).Ok? ==>
        var provider := ImportProvider(modules, name, IntendedClassName(name), config).value;
        var kind := GetAdapterClass(name).value;
        (r.Ok? <==> provider.kind == RequiredProvider(kind))
        && (r.Err? ==> r.error == Exc(TypeError, WrongProviderMessage(kind)))
        && (r.Ok? ==> fresh(r.value) && r.value.kind == kind && r.value.provider == provider)
    {
      var provider := ImportProvider(modules, name, IntendedClassName(name), config);
      if provider.Err? {
        return Err(provider.error);
      }
      r := CreateAdapter(name, provider.value);
    }

    /** `get_available_providers()`: a copy of the dictionary; it names
        exactly the registered providers, each with the class
        `get_adapter_class` returns, and later registrations do not change
        it. */
    function GetAvailableProviders(): (r: Dict<AdapterKind>)
      reads this
      ensures forall name :: HasKey(r, name) <==> GetAdapterClass(name).Ok?
      ensures forall name | HasKey(r, name) :: Lookup(r, name) == Some(GetAdapterClass(name).value)
    {
      registry
    }
  }
}
