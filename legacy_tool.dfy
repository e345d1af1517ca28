/** The older tool serialiser (src/core/tool.py): the same records as module
    `Tool`, serialised with a `version` key, an always-present `required`
    list, and parameter schemas kept exactly as given (nulls included). */
module LegacyTool {

  import opened Common
  import opened Tool

  /** `param_def.get("required", True)` on the raw dictionary itself, so a
      `"required": None` entry is falsy here. */
  predicate LegacyIsRequired(p: Param) {
    match p
    case Definition(d) => d.required
    case RawSchema(fields) => Truthy(GetOr(fields, "required", VBool(true)))
  }

  /** A raw schema is inserted as it is; a definition is dumped without
      `required`, nulls kept. */
  function LegacyPropertyValue(p: Param): Value {
    match p
    case Definition(d) => VDict(Dump(d))
    case RawSchema(fields) => VDict(fields)
  }

  /** The three keys of the older `parameters` block, in the order written:
      the object type, the properties and the required names. */
  function LegacyBlockOf(properties: Dict<Value>, required: seq<string>): (r: Dict<Value>)
    ensures Keys(r) == ["type", "properties", "required"]
  {
    var r := [
      ("type", VStr("object")),
      ("properties", VDict(properties)),
      ("required", VList(AsStrings(required)))];
    assert |r[0].0| == 4 && |r[1].0| == 10 && |r[2].0| == 8;
    r
  }

  /** The older `parameters` block of the parameters `ps`. */
  function LegacyBlock(ps: Dict<Param>): (r: Dict<Value>)
    ensures Keys(r) == ["type", "properties", "required"]
  {
    LegacyBlockOf(Collect(ps, LegacyPropertyValue), NamesWhere(ps, LegacyIsRequired))
  }

  /** The four top-level keys of an older serialised tool, `version` last. */
  function LegacyEntries(t: Tool, parameters: Dict<Value>): (r: Dict<Value>)
    ensures Keys(r) == ["name", "description", "parameters", "version"]
  {
    var r := [
      ("name", VStr(t.name)),
      ("description", VStr(t.description)),
      ("parameters", VDict(parameters)),
      ("version", VStr(t.version))];
    assert |r[0].0| == 4 && |r[1].0| == 11 && |r[2].0| == 10 && |r[3].0| == 7;
    r
  }

  /** `tool.to_dict()` with the older rules. */
  function LegacySchema(t: Tool): Dict<Value> {
    LegacyEntries(t, LegacyBlock(t.parameters))
  }

  /** `tool.to_dict()`: one pass over the parameters, filling the properties
      dictionary and the required list. */
  method ToDict(t: Tool) returns (r: Dict<Value>)
    ensures r == LegacySchema(t)
  {
    var ps := t.parameters;
    var properties: Dict<Value> := [];
    var required: seq<string> := [];
    var i := 0;
    while i < |ps|
      invariant 0 <= i <= |ps|
      invariant properties == Collect(ps[..i], LegacyPropertyValue)
      invariant required == NamesWhere(ps[..i], LegacyIsRequired)
    {
      ghost var next := ps[..i + 1];
      assert next[..i] == ps[..i] && next[i] == ps[i];
      var (name, p) := ps[i];
      match p {
        case RawSchema(fields) =>
          properties := Put(properties, name, VDict(fields));
          if Truthy(GetOr(fields, "required", VBool(true))) {
            required := required + [name];
          }
        case Definition(d) =>
          properties := Put(properties, name, VDict(Dump(d)));
          if d.required {
            required := required + [name];
          }
      }
      assert properties == Collect(next, LegacyPropertyValue);
      assert required == NamesWhere(next, LegacyIsRequired);
      i := i + 1;
    }
    assert ps[..|ps|] == ps;
    r := LegacyEntries(t, LegacyBlockOf(properties, required));
  }

  /** `tool.invoke(arguments)`: the same guard as the newer version. */
  function LegacyInvoke(t: Tool, arguments: Dict<Value>): (r: Result<Value>)
    ensures t.callable.None? ==> r == Err(Exc(ValueError, "Tool '" + t.name + "' has no associated function"))
    ensures t.callable.Some? ==> r == t.callable.value(arguments)
  {
    if t.callable.None? then Err(Exc(ValueError, "Tool '" + t.name + "' has no associated function"))
    else t.callable.value(arguments)
  }

  // ---------------------------------------------------------------------------
  // Properties of the older schema
  // ---------------------------------------------------------------------------

  /** The output carries the tool's version, and `required` is always
      present, possibly empty; there is no `additionalProperties`. */
  lemma LegacyShape(t: Tool)
    ensures Lookup(LegacySchema(t), "version") == Some(VStr(t.version))
    ensures Lookup(LegacySchema(t), "name") == Some(VStr(t.name))
    ensures Lookup(LegacySchema(t), "parameters") == Some(VDict(LegacyBlock(t.parameters)))
    ensures Lookup(LegacyBlock(t.parameters), "type") == Some(VStr("object"))
    ensures Lookup(LegacyBlock(t.parameters), "required") ==
      Some(VList(AsStrings(NamesWhere(t.parameters, LegacyIsRequired))))
    ensures !HasKey(LegacyBlock(t.parameters), "additionalProperties")
  {
    var s := LegacySchema(t);
    LookupAt(s, 0);
    LookupAt(s, 2);
    LookupAt(s, 3);
    var b := LegacyBlock(t.parameters);
    LookupAt(b, 0);
    LookupAt(b, 2);
    assert Keys(b)[0] == "type" && Keys(b)[1] == "properties" && Keys(b)[2] == "required";
  }

  /** A tool built with the defaults reports version "1.0.0". */
  lemma DefaultVersion(name: string, description: string, ps: Dict<Param>)
    ensures Lookup(LegacySchema(NewTool(name, description, ps)), "version") == Some(VStr("1.0.0"))
  {
    LegacyShape(NewTool(name, description, ps));
  }

  /** Each property is the parameter itself: a raw dictionary unchanged (nulls
      and its own `required` key included), a definition dumped with its null
      `enum` and `default` kept and no `required`. */
  lemma LegacyProperties(t: Tool)
    ensures forall i | 0 <= i < |t.parameters| ::
      Collect(t.parameters, LegacyPropertyValue)[i] == (t.parameters[i].0, LegacyPropertyValue(t.parameters[i].1))
    ensures forall i | 0 <= i < |t.parameters| && t.parameters[i].1.RawSchema? ::
      LegacyPropertyValue(t.parameters[i].1) == VDict(t.parameters[i].1.fields)
    ensures forall d: ParameterDefinition ::
      Keys(Dump(d)) == ["type", "description", "enum", "default"]
      && Lookup(Dump(d), "enum") == (if d.enum.None? then Some(VNone) else Some(VList(d.enum.value)))
      && Lookup(Dump(d), "default") == Some(d.default)
  {
    forall d: ParameterDefinition
      ensures Lookup(Dump(d), "enum") == (if d.enum.None? then Some(VNone) else Some(VList(d.enum.value)))
      && Lookup(Dump(d), "default") == Some(d.default)
    {
      LookupAt(Dump(d), 2);
      LookupAt(Dump(d), 3);
    }
  }

  /** The one place the two versions decide requiredness differently: a raw
      schema whose `required` entry is null is required under the newer rules
      (nulls are dropped first) and not required under the older ones. */
  lemma RequiredNullDiverges(fields: Dict<Value>)
    requires Lookup(fields, "required") == Some(VNone)
    ensures IsRequired(RawSchema(fields)) && !LegacyIsRequired(RawSchema(fields))
  {
  }

  /** Apart from that case the two versions produce the same required list. */
  lemma {:induction false} RequiredListsAgree(ps: seq<(string, Param)>)
    requires forall i | 0 <= i < |ps| :: ps[i].1.RawSchema? ==> Lookup(ps[i].1.fields, "required") != Some(VNone)
    ensures NamesWhere(ps, LegacyIsRequired) == NamesWhere(ps, IsRequired)
  {
    if ps != [] {
      var init := ps[..|ps| - 1];
      assert forall i | 0 <= i < |init| :: init[i] == ps[i];
      RequiredListsAgree(init);
      var last := ps[|ps| - 1].1;
      assert LegacyIsRequired(last) == IsRequired(last);
    }
  }
}
