/** Tools and their JSON-Schema-like serialisation, newer rules
    (src/llm_toolbridge/core/tool.py). The `Tool` and `ParameterDefinition`
    records are shared with the older serialiser in module `LegacyTool`:
    both source files declare them with the same fields and defaults. */
module Tool {

  import opened Common

  /** The JSON Schema type names a `ParameterDefinition` may carry. */
  datatype ParamType = StringType | NumberType | IntegerType | BooleanType | ArrayType | ObjectType

  function TypeLiteral(t: ParamType): string {
    match t
    case StringType => "string"
    case NumberType => "number"
    case IntegerType => "integer"
    case BooleanType => "boolean"
    case ArrayType => "array"
    case ObjectType => "object"
  }

  datatype ParameterDefinition = ParameterDefinition(
    ptype: ParamType,
    description: string,
    enum: Option<seq<Value>>,
    required: bool,
    default: Value)

  /** `ParameterDefinition(type=..., description=...)` with every other field
      left at its default. */
  function NewParameterDefinition(ptype: ParamType, description: string): (p: ParameterDefinition)
    ensures p.ptype == ptype && p.description == description
    ensures p.enum == None && p.required && p.default == VNone
  {
    ParameterDefinition(ptype, description, None, true, VNone)
  }

  /** A tool parameter is either a validated definition or a raw schema
      dictionary given by the caller. */
  datatype Param = Definition(def: ParameterDefinition) | RawSchema(fields: Dict<Value>)

  /** The bound Python callable, applied to the keyword arguments; any
      exception it raises (including a mismatch of keyword arguments) is an
      `Err`. */
  type ToolFunction = Dict<Value> -> Result<Value>

  datatype Tool = Tool(
    name: string,
    description: string,
    parameters: Dict<Param>,
    version: string,
    callable: Option<ToolFunction>)

  /** `Tool(name=..., description=..., parameters=...)`: version "1.0.0" and
      no function. */
  function NewTool(name: string, description: string, parameters: Dict<Param>): (t: Tool)
    ensures t.name == name && t.description == description && t.parameters == parameters
    ensures t.version == "1.0.0" && t.callable == None
  {
    Tool(name, description, parameters, "1.0.0", None)
  }

  /** `tool.invoke(arguments)`. */
  function Invoke(t: Tool, arguments: Dict<Value>): (r: Result<Value>)
    ensures t.callable.None? ==> r == Err(Exc(ValueError, "Tool '" + t.name + "' has no associated function"))
    ensures t.callable.Some? ==> r == t.callable.value(arguments)
  {
    match t.callable
    case None => Err(Exc(ValueError, "Tool '" + t.name + "' has no associated function"))
    case Some(f) => f(arguments)
  }

  // ---------------------------------------------------------------------------
  // Specification of `to_dict`
  // ---------------------------------------------------------------------------

  /** `param_def.model_dump(exclude={"required"})`: the remaining fields in
      declaration order, a missing enum as null. */
  function Dump(d: ParameterDefinition): (r: Dict<Value>)
    ensures Keys(r) == ["type", "description", "enum", "default"]
    ensures !HasKey(r, "required")
  {
    [("type", VStr(TypeLiteral(d.ptype))),
     ("description", VStr(d.description)),
     ("enum", match d.enum case Some(e) => VList(e) case None => VNone),
     ("default", d.default)]
  }

  /** The property schema emitted for one parameter: its fields without the
      null-valued ones. */
  function PropertySchema(p: Param): Dict<Value> {
    match p
    case Definition(d) => DropNone(Dump(d))
    case RawSchema(fields) => DropNone(fields)
  }

  /** Whether the parameter goes into the `required` list:
      `param_def.required` for a definition, `param_dict.get("required", True)`
      on the null-free copy for a raw schema. */
  predicate IsRequired(p: Param) {
    match p
    case Definition(d) => d.required
    case RawSchema(fields) => Truthy(GetOr(DropNone(fields), "required", VBool(true)))
  }

  /** The properties dictionary built by assigning `properties[name] = conv(p)`
      for each parameter in order. Shared by both serialisers. */
  function Collect(ps: seq<(string, Param)>, conv: Param -> Value): (r: Dict<Value>)
    ensures UniqueKeys(ps) ==> |r| == |ps|
    ensures UniqueKeys(ps) ==> forall i | 0 <= i < |ps| :: r[i] == (ps[i].0, conv(ps[i].1))
  {
    if ps == [] then []
    else
      var init := ps[..|ps| - 1];
      var last := ps[|ps| - 1];
      var before := Collect(init, conv);
      assert UniqueKeys(ps) ==> !HasKey(before, last.0) by {
        if UniqueKeys(ps) {
          forall j | 0 <= j < |before| ensures before[j].0 != last.0 {
            assert before[j].0 == ps[j].0;
          }
        }
      }
      Put(before, last.0, conv(last.1))
  }

  /** The names appended to the `required` list, in parameter order, of the
      parameters that `keep` selects. Shared by both serialisers. */
  function NamesWhere(ps: seq<(string, Param)>, keep: Param -> bool): seq<string> {
    if ps == [] then []
    else
      var last := ps[|ps| - 1];
      NamesWhere(ps[..|ps| - 1], keep) + (if keep(last.1) then [last.0] else [])
  }

  function AsStrings(names: seq<string>): (r: seq<Value>)
    ensures |r| == |names|
    ensures forall i | 0 <= i < |names| :: r[i] == VStr(names[i])
  {
    seq(|names|, i requires 0 <= i < |names| => VStr(names[i]))
  }

  function PropertyValue(p: Param): Value {
    VDict(PropertySchema(p))
  }

  /** The `parameters` block: every key written, then `required` deleted when
      the list is empty. */
  function ParametersBlock(ps: Dict<Param>): Dict<Value> {
    var required := NamesWhere(ps, IsRequired);
    var full: Dict<Value> := BlockEntries(VDict(Collect(ps, PropertyValue)), VList(AsStrings(required)));
    if required == [] then Remove(full, "required") else full
  }

  /** The four keys of the `parameters` block, in the order written. */
  function BlockEntries(properties: Value, required: Value): (r: Dict<Value>)
    ensures Keys(r) == ["type", "properties", "required", "additionalProperties"]
  {
    var r := [
      ("type", VStr("object")),
      ("properties", properties),
      ("required", required),
      ("additionalProperties", VBool(false))];
    assert |r[0].0| == 4 && |r[1].0| == 10 && |r[2].0| == 8 && |r[3].0| == 20;
    r
  }

  /** `tool.to_dict()` with the newer rules. */
  function Schema(t: Tool): Dict<Value> {
    ToolEntries(t.name, t.description, ParametersBlock(t.parameters))
  }

  /** The three top-level keys of a serialised tool, in the order written. */
  function ToolEntries(name: string, description: string, parameters: Dict<Value>): (r: Dict<Value>)
    ensures Keys(r) == ["name", "description", "parameters"]
  {
    var r := [
      ("name", VStr(name)),
      ("description", VStr(description)),
      ("parameters", VDict(parameters))];
    assert |r[0].0| == 4 && |r[1].0| == 11 && |r[2].0| == 10;
    r
  }
  /** `tool.to_dict()`: fills the properties dictionary and the required list
      parameter by parameter, then drops an empty required list. */
  method ToDict(t: Tool) returns (r: Dict<Value>)
    ensures r == Schema(t)
  {
    var ps := t.parameters;
    var properties: Dict<Value> := [];
    var required: seq<string> := [];
    var i := 0;
    while i < |ps|
      invariant 0 <= i <= |ps|
      invariant properties == Collect(ps[..i], PropertyValue)
      invariant required == NamesWhere(ps[..i], IsRequired)
    {
      ghost var next := ps[..i + 1];
      assert next[..i] == ps[..i] && next[i] == ps[i];
      var (name, p) := ps[i];
      match p {
        case RawSchema(fields) =>
          var paramDict := DropNone(fields);
          assert VDict(paramDict) == PropertyValue(p);
          properties := Put(properties, name, VDict(paramDict));
          if Truthy(GetOr(paramDict, "required", VBool(true))) {
            required := required + [name];
          }
        case Definition(d) =>
          var paramDict := DropNone(Dump(d));
          assert VDict(paramDict) == PropertyValue(p);
          properties := Put(properties, name, VDict(paramDict));
          if d.required {
            required := required + [name];
          }
      }
      assert properties == Collect(next, PropertyValue);
      assert required == NamesWhere(next, IsRequired);
      i := i + 1;
    }
    assert ps[..|ps|] == ps;
    var block := BlockEntries(VDict(properties), VList(AsStrings(required)));
    if required == [] {
      block := Remove(block, "required");
    }
    r := ToolEntries(t.name, t.description, block);
  }

  // ---------------------------------------------------------------------------
  // Properties of the schema
  // ---------------------------------------------------------------------------

  /** The parameters block of a serialised tool. */
  function BlockOf(t: Tool): Dict<Value> {
    ParametersBlock(t.parameters)
  }

  /** The output always names the tool, describes it, and declares an object
      schema that admits no additional properties. */
  lemma SchemaShape(t: Tool)
    ensures Keys(Schema(t)) == ["name", "description", "parameters"]
    ensures Lookup(Schema(t), "name") == Some(VStr(t.name))
    ensures Lookup(Schema(t), "description") == Some(VStr(t.description))
    ensures Lookup(Schema(t), "parameters") == Some(VDict(BlockOf(t)))
    ensures Lookup(BlockOf(t), "type") == Some(VStr("object"))
    ensures Lookup(BlockOf(t), "additionalProperties") == Some(VBool(false))
    ensures Lookup(BlockOf(t), "properties") == Some(VDict(Collect(t.parameters, PropertyValue)))
  {
    var s := Schema(t);
    LookupAt(s, 0);
    LookupAt(s, 1);
    LookupAt(s, 2);
    var required := NamesWhere(t.parameters, IsRequired);
    var full := BlockEntries(VDict(Collect(t.parameters, PropertyValue)), VList(AsStrings(required)));
    LookupAt(full, 0);
    LookupAt(full, 1);
    LookupAt(full, 3);
  }

  /** `required` is present exactly when some parameter is required, and then
      lists exactly the required parameter names. */
  lemma RequiredKeyPresence(t: Tool)
    ensures HasKey(BlockOf(t), "required") <==> exists i | 0 <= i < |t.parameters| :: IsRequired(t.parameters[i].1)
    ensures HasKey(BlockOf(t), "required") ==>
      Lookup(BlockOf(t), "required") == Some(VList(AsStrings(NamesWhere(t.parameters, IsRequired))))
  {
    var ps := t.parameters;
    var required := NamesWhere(ps, IsRequired);
    var full := BlockEntries(VDict(Collect(ps, PropertyValue)), VList(AsStrings(required)));
    LookupAt(full, 2);
    if required != [] {
      NamesWhereMembership(ps, IsRequired, required[0]);
    } else {
      forall i | 0 <= i < |ps| ensures !IsRequired(ps[i].1) {
        NamesWhereMembership(ps, IsRequired, ps[i].0);
      }
    }
  }

  /** A name is listed exactly when it names a parameter that `keep` selects. */
  lemma {:induction false} NamesWhereMembership(ps: seq<(string, Param)>, keep: Param -> bool, n: string)
    ensures n in NamesWhere(ps, keep) <==> exists i | 0 <= i < |ps| :: ps[i].0 == n && keep(ps[i].1)
  {
    if ps != [] {
      var init := ps[..|ps| - 1];
      NamesWhereMembership(init, keep, n);
      if exists i | 0 <= i < |ps| :: ps[i].0 == n && keep(ps[i].1) {
        var i :| 0 <= i < |ps| && ps[i].0 == n && keep(ps[i].1);
        if i < |ps| - 1 {
          assert init[i] == ps[i];
        }
      }
      if exists i | 0 <= i < |init| :: init[i].0 == n && keep(init[i].1) {
        var i :| 0 <= i < |init| && init[i].0 == n && keep(init[i].1);
        assert ps[i] == init[i];
      }
    }
  }

  /** The listed names follow parameter order: each listed name is at a
      strictly later parameter position than the one before it. */
  lemma {:induction false} NamesWhereOrdered(ps: Dict<Param>, keep: Param -> bool)
    ensures forall a, b | 0 <= a < b < |NamesWhere(ps, keep)| ::
      HasKey(ps, NamesWhere(ps, keep)[a]) && HasKey(ps, NamesWhere(ps, keep)[b])
      && IndexOfKey(ps, NamesWhere(ps, keep)[a]) < IndexOfKey(ps, NamesWhere(ps, keep)[b])
  {
    if ps != [] {
      var init: Dict<Param> := ps[..|ps| - 1];
      var last := ps[|ps| - 1];
      NamesWhereOrdered(init, keep);
      var names := NamesWhere(ps, keep);
      var before := NamesWhere(init, keep);
      assert names == before + (if keep(last.1) then [last.0] else []);
      forall x | x in before ensures HasKey(ps, x) && IndexOfKey(ps, x) < |ps| - 1 && IndexOfKey(ps, x) == IndexOfKey(init, x) {
        NamesWhereMembership(init, keep, x);
        var i :| 0 <= i < |init| && init[i].0 == x && keep(init[i].1);
        assert ps[i] == init[i];
        IndexOfKeyPrefix(ps, x);
      }
      IndexOfKeyAt(ps, |ps| - 1);
    }
  }

  /** No emitted property schema carries a null value, so neither
      `"enum": null` nor `"default": null` is ever sent. */
  lemma NoNullInProperties(t: Tool)
    ensures forall i | 0 <= i < |t.parameters| ::
      Collect(t.parameters, PropertyValue)[i] == (t.parameters[i].0, VDict(PropertySchema(t.parameters[i].1)))
      && forall k :: Lookup(PropertySchema(t.parameters[i].1), k) != Some(VNone)
  {
    forall i, k | 0 <= i < |t.parameters| ensures Lookup(PropertySchema(t.parameters[i].1), k) != Some(VNone) {
      var s := PropertySchema(t.parameters[i].1);
      if Lookup(s, k).Some? {
        var j := LookupEntry(s, k);
      }
    }
  }

  /** A schema built from a definition never carries `required`; it has the
      type and description, the enum exactly when one is given, and the
      default exactly when it is not null. */
  lemma DefinitionSchema(d: ParameterDefinition)
    ensures !HasKey(PropertySchema(Definition(d)), "required")
    ensures Lookup(PropertySchema(Definition(d)), "type") == Some(VStr(TypeLiteral(d.ptype)))
    ensures Lookup(PropertySchema(Definition(d)), "description") == Some(VStr(d.description))
    ensures Lookup(PropertySchema(Definition(d)), "enum") == (match d.enum case Some(e) => Some(VList(e)) case None => None)
    ensures Lookup(PropertySchema(Definition(d)), "default") == (if d.default == VNone then None else Some(d.default))
  {
    var dump := Dump(d);
    LookupAt(dump, 0);
    LookupAt(dump, 1);
    LookupAt(dump, 2);
    LookupAt(dump, 3);
  }

  /** A raw schema keeps every non-null key with its value, including any
      `required` key of its own, and nothing else. */
  lemma RawSchemaKept(fields: Dict<Value>, k: string)
    ensures Lookup(PropertySchema(RawSchema(fields)), k) ==
      (if Lookup(fields, k) == Some(VNone) then None else Lookup(fields, k))
    ensures HasKey(PropertySchema(RawSchema(fields)), k) ==> HasKey(fields, k)
  {
  }

  /** Requiredness: a definition by its flag; a raw schema unless it has a
      non-null falsy `required` value (`False`, `0`, `""`, `[]`, `{}`). */
  lemma RequiredRule(p: Param)
    ensures p.Definition? ==> (IsRequired(p) <==> p.def.required)
    ensures p.RawSchema? ==> (IsRequired(p) <==>
      match Lookup(p.fields, "required")
      case None => true
      case Some(v) => v == VNone || Truthy(v))
  {
  }

  /** The `required` list of a serialised tool, for a tool that has one. */
  function RequiredList(t: Tool): seq<string> {
    NamesWhere(t.parameters, IsRequired)
  }

  /** Putting the pieces together: a parameter name appears in the emitted
      `required` list exactly when that parameter is required. */
  lemma RequiredListSpec(t: Tool, n: string)
    ensures n in RequiredList(t) <==> HasKey(t.parameters, n) && IsRequired(Lookup(t.parameters, n).value)
  {
    var ps := t.parameters;
    NamesWhereMembership(ps, IsRequired, n);
    forall j | 0 <= j < |ps| && ps[j].0 == n ensures Lookup(ps, n) == Some(ps[j].1) {
      LookupAt(ps, j);
    }
  }
}
