/**
 * Endpoint lookup and the `inputSchema` of a generated tool
 * (`findEndpoint` and `generateInputSchema` in
 * src/services/generateEndpointToolCode.ts).
 *
 * The parameters of an operation are read one by one: path and query
 * parameters become typed properties, body parameters schemas mapped by the
 * schema mapper, header and form parameters are passed over; an OpenAPI 3
 * `requestBody` is read from its `application/json` content.  Property
 * reads the source makes on `null` are the errors of the model.
 */
module EndpointTool {
  import opened Text
  import opened Json
  import opened SchemaMapper

  // ---------------------------------------------------------------- endpoint lookup

  function PathMissing(path: string): string
  {
    "Endpoint path '" + path + "' not found in Swagger definition"
  }

  function MethodMissing(m: string, path: string): string
  {
    "Invalid or unsupported HTTP method '" + m + "' for endpoint path '" + path + "'"
  }

  /** `swaggerDefinition.paths || {}`. */
  function PathsOr(doc: Json): Json
  {
    Or(Get(doc, "paths"), JObj([]))
  }

  /**
   * `findEndpoint`: the truthy operation under the path and the lower-cased
   * method; a missing path and a missing method fail with different messages.
   */
  function FindEndpoint(doc: Json, path: string, m: string): (r: Result<Json>)
    ensures doc.JNull? ==> r == Err(NullRead("paths"))
    ensures !doc.JNull? && !TruthyOpt(Get(PathsOr(doc), path)) ==> r == Err(PathMissing(path))
    ensures !doc.JNull? && TruthyOpt(Get(PathsOr(doc), path)) ==>
      (var op := Get(Get(PathsOr(doc), path).value, Lower(m));
       if TruthyOpt(op) then r == Ok(op.value) else r == Err(MethodMissing(m, path)))
    ensures r.Ok? ==> Truthy(r.value)
  {
    if doc.JNull? then Err(NullRead("paths"))
    else
      var item := Get(PathsOr(doc), path);
      if !TruthyOpt(item) then Err(PathMissing(path))
      else
        var op := Get(item.value, Lower(m));
        if !TruthyOpt(op) then Err(MethodMissing(m, path)) else Ok(op.value)
  }

  /** Methods that differ only in case find the same operation, or both fail. */
  lemma MethodCaseInsensitive(doc: Json, path: string, m1: string, m2: string)
    requires Lower(m1) == Lower(m2)
    ensures FindEndpoint(doc, path, m1).Ok? <==> FindEndpoint(doc, path, m2).Ok?
    ensures FindEndpoint(doc, path, m1).Ok? ==> FindEndpoint(doc, path, m1) == FindEndpoint(doc, path, m2)
    ensures FindEndpoint(doc, path, m1).Err? && !doc.JNull? && TruthyOpt(Get(PathsOr(doc), path)) ==>
      FindEndpoint(doc, path, m1).msg == MethodMissing(m1, path) && FindEndpoint(doc, path, m2).msg == MethodMissing(m2, path)
  {
  }

  // ---------------------------------------------------------------- one parameter

  /** What one parameter contributes: a property (absent for a body without schema) and a `required` entry. */
  datatype Slot = Slot(key: string, node: Option<Json>, required: Option<Json>)

  /** The value `push(param.name)` stores; `undefined` is written out as `null`. */
  function NameValue(name: Option<Json>): Json
  {
    if name.Some? then name.value else JNull
  }

  predicate IsIn(p: Json, where: string)
  {
    Get(p, "in") == Some(Str(where))
  }

  /**
   * `{...modelSchema, description}` for a body schema: a `$ref` is expanded
   * as a model directly, bypassing the wrapper heuristic; an inline schema is
   * mapped.  A falsy schema gives no property.
   */
  function BodyNode(doc: Json, schema: Option<Json>, description: Json, splitError: string): (r: Result<Option<Json>>)
    ensures r.Ok? && r.value.Some? ==> Lookup(Fields(r.value.value), "description") == Some(description)
    ensures r.Ok? ==> (r.value.Some? <==> TruthyOpt(schema))
  {
    if !TruthyOpt(schema) then Ok(None)
    else
      var ref := Get(schema.value, "$ref");
      if !TruthyOpt(ref) then Ok(Some(With(MapSchema(doc, schema.value), "description", description)))
      else if ref.value.JStr? then Ok(Some(With(ExtractModel(doc, LastSegment(ref.value.s)), "description", description)))
      else Err(splitError)
  }

  /** The `replace` call on a body parameter's name when the name is not a string. */
  function ReplaceError(name: Option<Json>): string
  {
    if name.None? then "Cannot read properties of undefined (reading 'replace')"
    else if name.value.JNull? then NullRead("replace")
    else "param.name.replace is not a function"
  }

  /** The label of a path or query parameter's default description. */
  function Label(p: Json): string
  {
    if IsIn(p, "path") then "Path parameter: " else "Query parameter: "
  }

  /** A path or query parameter: its mapped type and description, and `enum` for a query parameter. */
  function TypedSlot(p: Json): (r: Slot)
    ensures r.key == OptText(Get(p, "name")) && r.node.Some?
    ensures r.required == if TruthyOpt(Get(p, "required")) then Some(NameValue(Get(p, "name"))) else None
  {
    var name := Get(p, "name");
    var typed := [Field("type", Str(MapType(Get(p, "type")))),
                  Field("description", Or(Get(p, "description"), Str(Label(p) + OptText(name))))];
    var node := if IsIn(p, "query") && TruthyOpt(Get(p, "enum")) then typed + [Field("enum", Get(p, "enum").value)] else typed;
    Slot(OptText(name), Some(JObj(node)), if TruthyOpt(Get(p, "required")) then Some(NameValue(name)) else None)
  }

  /** A body parameter: its name without dots, and its schema unless it has none. */
  function BodySlot(doc: Json, p: Json): (r: Result<Slot>)
    ensures r.Ok? <==> StringAt(p, "name").Some? && BodySchema(doc, p).Ok?
    ensures r.Ok? ==> r.value.key == RemoveChar(StringAt(p, "name").value, '.') && '.' !in r.value.key
    ensures r.Ok? ==> r.value.node == BodySchema(doc, p).value
    ensures r.Ok? ==> r.value.required == if TruthyOpt(Get(p, "required")) then Some(Str(r.value.key)) else None
  {
    match Get(p, "name")
    case Some(JStr(n)) =>
      var key := RemoveChar(n, '.');
      var node := BodySchema(doc, p);
      if node.Err? then Err(node.msg)
      else Ok(Slot(key, node.value, if TruthyOpt(Get(p, "required")) then Some(Str(key)) else None))
    case _ => Err(ReplaceError(Get(p, "name")))
  }

  /** The property of a body parameter whose name is a string. */
  function BodySchema(doc: Json, p: Json): Result<Option<Json>>
  {
    var key := RemoveChar(if StringAt(p, "name").Some? then StringAt(p, "name").value else "", '.');
    BodyNode(doc, Get(p, "schema"), Or(Get(p, "description"), Str("Request body: " + key)),
      "param.schema.$ref.split is not a function")
  }

  /** One pass of the parameter loop; `None` for a parameter that is passed over. */
  function ParamSlot(doc: Json, p: Json): (r: Result<Option<Slot>>)
    ensures p.JNull? ==> r == Err(NullRead("in"))
    ensures r.Ok? && r.value.Some? ==> IsIn(p, "path") || IsIn(p, "query") || IsIn(p, "body")
    ensures IsIn(p, "body") && r.Ok? && r.value.Some? ==> '.' !in r.value.value.key
    ensures IsIn(p, "header") || IsIn(p, "formData") ==> r == Ok(None)
  {
    if p.JNull? then Err(NullRead("in"))
    else if IsIn(p, "path") || IsIn(p, "query") then Ok(Some(TypedSlot(p)))
    else if IsIn(p, "body") then
      var b := BodySlot(doc, p);
      if b.Err? then Err(b.msg) else Ok(Some(b.value))
    else Ok(None)
  }

  // ---------------------------------------------------------------- the parameter loop

  /** The `properties` and `required` accumulated so far. */
  datatype Built = Built(props: seq<Field>, required: seq<Json>)

  /** `inputSchema.properties[key] = node` and `inputSchema.required.push(name)`. */
  function Apply(b: Built, slot: Option<Slot>): Built
  {
    if slot.None? then b
    else
      var s := slot.value;
      Built(if s.node.Some? then Put(b.props, s.key, s.node.value) else b.props,
            b.required + (if s.required.Some? then [s.required.value] else []))
  }

  /** The parameters from `ps` on, applied to `b`; the first parameter that throws ends the loop. */
  function ParamsFrom(doc: Json, ps: seq<Json>, b: Built): Result<Built>
  {
    if ps == [] then Ok(b)
    else
      match ParamSlot(doc, ps[0])
      case Err(m) => Err(m)
      case Ok(slot) => ParamsFrom(doc, ps[1..], Apply(b, slot))
  }

  /** The values `for (const param of endpoint.parameters)` visits. */
  function ParametersOf(ep: Json): (r: Result<seq<Json>>)
    ensures r.Ok? && Get(ep, "parameters").Some? && Get(ep, "parameters").value.JArr? ==> r.value == Get(ep, "parameters").value.items
  {
    var ps := Get(ep, "parameters");
    if !TruthyOpt(ps) then Ok([])
    else match ps.value
      case JArr(items) => Ok(items)
      case JStr(s) => Ok(Chars(s))
      case _ => Err("endpoint.parameters is not iterable")
  }

  /** The one-character strings a `for...of` loop over a string visits. */
  function Chars(s: string): (r: seq<Json>)
    ensures |r| == |s| && forall i :: 0 <= i < |s| ==> r[i] == JStr([s[i]])
  {
    if s == "" then [] else [JStr([s[0]])] + Chars(s[1..])
  }

  /** The `requestBody` of an OpenAPI 3 operation, read from its `application/json` content only. */
  function RequestBodySlot(doc: Json, ep: Json): (r: Result<Option<Slot>>)
    ensures r.Ok? && r.value.Some? ==> r.value.value.key == "requestBody" && r.value.value.node.Some?
  {
    var rb := Get(ep, "requestBody");
    if !TruthyOpt(rb) then Ok(None)
    else
      var json := Get(Or(Get(rb.value, "content"), JObj([])), "application/json");
      if !(TruthyOpt(json) && TruthyOpt(Get(json.value, "schema"))) then Ok(None)
      else
        var node := BodyNode(doc, Get(json.value, "schema"), Or(Get(rb.value, "description"), Str("Request body")),
          "schema.$ref.split is not a function");
        if node.Err? then Err(node.msg)
        else Ok(Some(Slot("requestBody", node.value,
          if TruthyOpt(Get(rb.value, "required")) then Some(Str("requestBody")) else None)))
  }

  /** The schema object built from the accumulated properties and required names. */
  function SchemaOf(b: Built): Json
  {
    JObj([Field("type", Str("object")), Field("properties", JObj(b.props)), Field("required", JArr(b.required))])
  }

  /** `generateInputSchema`. */
  function InputSchema(doc: Json, ep: Json): Result<Json>
  {
    match ParametersOf(ep)
    case Err(m) => Err(m)
    case Ok(ps) =>
      match ParamsFrom(doc, ps, Built([], []))
      case Err(m) => Err(m)
      case Ok(b) =>
        match RequestBodySlot(doc, ep)
        case Err(m) => Err(m)
        case Ok(slot) => Ok(SchemaOf(Apply(b, slot)))
  }

  /** `generateInputSchema` as the source runs it: a loop that assigns properties and pushes required names. */
  method GenerateInputSchema(doc: Json, ep: Json) returns (r: Result<Json>)
    ensures r == InputSchema(doc, ep)
  {
    var params := ParametersOf(ep);
    if params.Err? {
      return Err(params.msg);
    }
    var ps := params.value;
    var props: seq<Field> := [];
    var required: seq<Json> := [];
    var i := 0;
    while i < |ps|
      invariant 0 <= i <= |ps|
      invariant ParamsFrom(doc, ps[i..], Built(props, required)) == ParamsFrom(doc, ps, Built([], []))
    {
      var slot := ParamSlot(doc, ps[i]);
      ParamsStep(doc, ps, i, Built(props, required));
      if slot.Err? {
        return Err(slot.msg);
      }
      ghost var before := Built(props, required);
      if slot.value.Some? {
        var s := slot.value.value;
        if s.node.Some? {
          props := Put(props, s.key, s.node.value);
        }
        if s.required.Some? {
          required := required + [s.required.value];
        }
      }
      assert Built(props, required) == Apply(before, slot.value);
      i := i + 1;
    }
    var body := RequestBodySlot(doc, ep);
    if body.Err? {
      return Err(body.msg);
    }
    var b := Apply(Built(props, required), body.value);
    r := Ok(SchemaOf(b));
  }

  /** One turn of the parameter loop: a throwing parameter ends it, any other is applied. */
  lemma ParamsStep(doc: Json, ps: seq<Json>, i: nat, b: Built)
    requires i < |ps|
    ensures ParamSlot(doc, ps[i]).Err? ==> ParamsFrom(doc, ps[i..], b) == Err(ParamSlot(doc, ps[i]).msg)
    ensures ParamSlot(doc, ps[i]).Ok? ==>
      ParamsFrom(doc, ps[i..], b) == ParamsFrom(doc, ps[i + 1..], Apply(b, ParamSlot(doc, ps[i]).value))
  {
    assert ps[i..][0] == ps[i];
    assert ps[i..][1..] == ps[i + 1..];
  }

  // ---------------------------------------------------------------- properties

  /** The `required` entry a parameter contributes, stated from the parameter alone. */
  function RequiredEntry(p: Json): seq<Json>
  {
    if !TruthyOpt(Get(p, "required")) then []
    else if IsIn(p, "path") || IsIn(p, "query") then [NameValue(Get(p, "name"))]
    else if IsIn(p, "body") && StringAt(p, "name").Some? then [Str(RemoveChar(StringAt(p, "name").value, '.'))]
    else []
  }

  function RequiredOf(ps: seq<Json>): seq<Json>
  {
    if ps == [] then [] else RequiredEntry(ps[0]) + RequiredOf(ps[1..])
  }

  /**
   * `required` lists the required path, query and body parameters in
   * parameter order, whether or not a body parameter has a schema.
   */
  lemma {:induction false} RequiredInOrder(doc: Json, ps: seq<Json>, b: Built)
    requires ParamsFrom(doc, ps, b).Ok?
    ensures ParamsFrom(doc, ps, b).value.required == b.required + RequiredOf(ps)
  {
    if ps != [] {
      var slot := ParamSlot(doc, ps[0]).value;
      SlotRequired(doc, ps[0]);
      RequiredInOrder(doc, ps[1..], Apply(b, slot));
    }
  }

  lemma SlotRequired(doc: Json, p: Json)
    requires ParamSlot(doc, p).Ok?
    ensures Apply(Built([], []), ParamSlot(doc, p).value).required == RequiredEntry(p)
    ensures forall b :: Apply(b, ParamSlot(doc, p).value).required == b.required + RequiredEntry(p)
  {
  }

  /** The request body takes part: truthy, with a truthy `application/json` schema and a truthy `required`. */
  predicate BodyRequired(ep: Json)
  {
    var rb := Get(ep, "requestBody");
    TruthyOpt(rb) &&
    var json := Get(Or(Get(rb.value, "content"), JObj([])), "application/json");
    TruthyOpt(json) && TruthyOpt(Get(json.value, "schema")) && TruthyOpt(Get(rb.value, "required"))
  }

  /**
   * The schema's `required` lists the required parameters in parameter
   * order, followed by `requestBody` exactly when the request body is required.
   */
  lemma InputSchemaRequired(doc: Json, ep: Json)
    requires InputSchema(doc, ep).Ok?
    ensures |InputSchema(doc, ep).value.fields| == 3
    ensures InputSchema(doc, ep).value.fields[2] ==
      Field("required", JArr(RequiredOf(ParametersOf(ep).value) + (if BodyRequired(ep) then [Str("requestBody")] else [])))
  {
    var ps := ParametersOf(ep).value;
    var b := ParamsFrom(doc, ps, Built([], [])).value;
    var slot := RequestBodySlot(doc, ep).value;
    RequiredInOrder(doc, ps, Built([], []));
    assert b.required == RequiredOf(ps);
    assert InputSchema(doc, ep).value == SchemaOf(Apply(b, slot));
    if BodyRequired(ep) {
      assert slot.Some? && slot.value.required == Some(Str("requestBody"));
    } else {
      assert slot.None? || slot.value.required.None?;
      assert Apply(b, slot).required == RequiredOf(ps) + [];
    }
  }

  /** A parameter read from `in: header` or `in: formData`. */
  predicate Skipped(p: Json)
  {
    IsIn(p, "header") || IsIn(p, "formData")
  }

  function WithoutSkipped(ps: seq<Json>): (r: seq<Json>)
    ensures forall i :: 0 <= i < |r| ==> !Skipped(r[i])
  {
    if ps == [] then []
    else (if Skipped(ps[0]) then [] else [ps[0]]) + WithoutSkipped(ps[1..])
  }

  /** Header and form parameters leave no trace: removing them changes nothing. */
  lemma {:induction false} SkippedIgnored(doc: Json, ps: seq<Json>, b: Built)
    ensures ParamsFrom(doc, WithoutSkipped(ps), b) == ParamsFrom(doc, ps, b)
  {
    if ps != [] {
      if Skipped(ps[0]) {
        assert ParamSlot(doc, ps[0]) == Ok(None);
        assert Apply(b, None) == b;
        assert WithoutSkipped(ps) == [] + WithoutSkipped(ps[1..]) == WithoutSkipped(ps[1..]);
        SkippedIgnored(doc, ps[1..], b);
      } else {
        var rest := WithoutSkipped(ps[1..]);
        assert WithoutSkipped(ps) == [ps[0]] + rest;
        assert ([ps[0]] + rest)[1..] == rest && ([ps[0]] + rest)[0] == ps[0];
        match ParamSlot(doc, ps[0])
        case Err(m) =>
        case Ok(slot) => SkippedIgnored(doc, ps[1..], Apply(b, slot));
      }
    }
  }

  /**
   * A path parameter's property is its mapped type and description only; a
   * query parameter's carries `enum` exactly when the parameter's `enum` is truthy.
   */
  lemma EnumOnlyForQuery(doc: Json, p: Json)
    requires !p.JNull? && (IsIn(p, "path") || IsIn(p, "query"))
    ensures ParamSlot(doc, p).Ok? && ParamSlot(doc, p).value.Some? && ParamSlot(doc, p).value.value.node.Some?
    ensures var node := ParamSlot(doc, p).value.value.node.value;
      Lookup(Fields(node), "type") == Some(Str(MapType(Get(p, "type"))))
      && Lookup(Fields(node), "enum") == (if IsIn(p, "query") && TruthyOpt(Get(p, "enum")) then Get(p, "enum") else None)
  {
    var typed := [Field("type", Str(MapType(Get(p, "type")))),
                  Field("description", Or(Get(p, "description"), Str(Label(p) + OptText(Get(p, "name")))))];
    assert Lookup(typed, "enum") == Lookup(typed[1..], "enum") == None;
    if IsIn(p, "query") && TruthyOpt(Get(p, "enum")) {
      var node := typed + [Field("enum", Get(p, "enum").value)];
      assert Lookup(node, "enum") == Lookup(node[1..], "enum") == Lookup(node[2..], "enum");
    }
  }

  /** A required body parameter without a schema adds no property but is still listed in `required`. */
  lemma BodyWithoutSchema(doc: Json, p: Json, n: string)
    requires IsIn(p, "body") && Get(p, "name") == Some(Str(n)) && TruthyOpt(Get(p, "required"))
    requires !TruthyOpt(Get(p, "schema"))
    ensures ParamSlot(doc, p) == Ok(Some(Slot(RemoveChar(n, '.'), None, Some(Str(RemoveChar(n, '.'))))))
  {
  }

  /** A body `$ref` is expanded as a model whatever its name: the wrapper heuristic is not consulted. */
  lemma BodyRefExpandsModel(doc: Json, schema: Json, ref: string, description: Json, e: string)
    requires Get(schema, "$ref") == Some(Str(ref)) && ref != ""
    ensures BodyNode(doc, Some(schema), description, e) ==
      Ok(Some(With(ExtractModel(doc, LastSegment(ref)), "description", description)))
  {
  }

  /** The same `$ref` nested in a schema goes through the wrapper heuristic. */
  lemma NestedRefUsesWrapper(doc: Json, schema: Json, ref: string)
    requires Get(schema, "$ref") == Some(Str(ref)) && ref != "" && IsLikelyUnmarshaler(doc, LastSegment(ref))
    ensures MapSchema(doc, schema) == ProcessUnmarshalerType(doc, LastSegment(ref))
  {
    assert RefOf(schema) == Some(ref);
    assert Walk(doc, schema, {}) == WalkRef(doc, RefName(ref), {});
  }

  /**
   * The request body comes from the `application/json` content alone: there
   * is one exactly when that content has a truthy schema.
   */
  lemma RequestBodyOnlyJson(doc: Json, ep: Json)
    requires RequestBodySlot(doc, ep).Ok?
    ensures RequestBodySlot(doc, ep).value.Some? <==>
      TruthyOpt(Get(ep, "requestBody")) &&
      (var json := Get(Or(Get(Get(ep, "requestBody").value, "content"), JObj([])), "application/json");
       TruthyOpt(json) && TruthyOpt(Get(json.value, "schema")))
  {
  }

  /** The keys of the produced `properties` are those assigned, in any order of first assignment. */
  lemma PutKeys(fs: seq<Field>, key: string, v: Json)
    ensures Keys(Put(fs, key, v)) == Keys(fs) + {key}
  {
    var r := Put(fs, key, v);
    LookupKey(r, key);
    if |r| == |fs| {
      PutSameLength(fs, key, v);
    } else {
      assert r == fs + [Field(key, v)];
      assert Keys(r) == Keys(fs) + {key} by {
        forall k | k in Keys(r) ensures k in Keys(fs) + {key} {
          var i :| 0 <= i < |r| && r[i].key == k;
          if i < |fs| { assert r[i] == fs[i]; }
        }
        forall k | k in Keys(fs) ensures k in Keys(r) {
          var i :| 0 <= i < |fs| && fs[i].key == k;
          assert r[i] == fs[i];
        }
      }
    }
  }

  /** Overwriting an existing key keeps every key where it was. */
  lemma {:induction false} PutSameLength(fs: seq<Field>, key: string, v: Json)
    requires |Put(fs, key, v)| == |fs|
    ensures Keys(Put(fs, key, v)) == Keys(fs) + {key}
  {
    var r := Put(fs, key, v);
    if fs[0].key == key {
      assert r == [Field(key, v)] + fs[1..];
      assert Keys(r) == Keys(fs) by {
        forall k | k in Keys(r) ensures k in Keys(fs) {
          var i :| 0 <= i < |r| && r[i].key == k;
          if i > 0 { assert r[i] == fs[i]; }
        }
        forall k | k in Keys(fs) ensures k in Keys(r) {
          var i :| 0 <= i < |fs| && fs[i].key == k;
          if i > 0 { assert r[i] == fs[i]; }
        }
      }
    } else {
      var rest := Put(fs[1..], key, v);
      assert r == [fs[0]] + rest;
      PutSameLength(fs[1..], key, v);
      assert Keys(r) == {fs[0].key} + Keys(rest) by {
        forall k | k in Keys(r) ensures k in {fs[0].key} + Keys(rest) {
          var i :| 0 <= i < |r| && r[i].key == k;
          if i > 0 { assert r[i] == rest[i - 1]; }
        }
        forall k | k in Keys(rest) ensures k in Keys(r) {
          var i :| 0 <= i < |rest| && rest[i].key == k;
          assert r[i + 1] == rest[i];
        }
      }
      assert Keys(fs) == {fs[0].key} + Keys(fs[1..]) by {
        forall k | k in Keys(fs) ensures k in {fs[0].key} + Keys(fs[1..]) {
          var i :| 0 <= i < |fs| && fs[i].key == k;
          if i > 0 { assert fs[i] == fs[1..][i - 1]; }
        }
        forall k | k in Keys(fs[1..]) ensures k in Keys(fs) {
          var i :| 0 <= i < |fs[1..]| && fs[1..][i].key == k;
          assert fs[i + 1] == fs[1..][i];
        }
      }
    }
  }

  /** The property key a parameter assigns, if any. */
  function PropKey(p: Json): Option<string>
  {
    if p.JNull? then None
    else if IsIn(p, "path") || IsIn(p, "query") then Some(OptText(Get(p, "name")))
    else if IsIn(p, "body") && StringAt(p, "name").Some? && TruthyOpt(Get(p, "schema")) then
      Some(RemoveChar(StringAt(p, "name").value, '.'))
    else None
  }

  function PropKeys(ps: seq<Json>): set<string>
  {
    if ps == [] then {} else (if PropKey(ps[0]).Some? then {PropKey(ps[0]).value} else {}) + PropKeys(ps[1..])
  }

  /** Every property key comes from a path, query or body parameter that assigns it, and each of them appears. */
  lemma {:induction false} PropertyKeys(doc: Json, ps: seq<Json>, b: Built)
    requires ParamsFrom(doc, ps, b).Ok?
    ensures Keys(ParamsFrom(doc, ps, b).value.props) == Keys(b.props) + PropKeys(ps)
  {
    if ps != [] {
      var slot := ParamSlot(doc, ps[0]).value;
      SlotKey(doc, ps[0], b);
      PropertyKeys(doc, ps[1..], Apply(b, slot));
    }
  }

  lemma SlotKey(doc: Json, p: Json, b: Built)
    requires ParamSlot(doc, p).Ok?
    ensures Keys(Apply(b, ParamSlot(doc, p).value).props) ==
      Keys(b.props) + (if PropKey(p).Some? then {PropKey(p).value} else {})
  {
    var slot := ParamSlot(doc, p).value;
    SlotKeyOf(doc, p);
    if PropKey(p).Some? {
      PutKeys(b.props, slot.value.key, slot.value.node.value);
    }
  }

  /** A parameter assigns a property exactly under its `PropKey`. */
  lemma SlotKeyOf(doc: Json, p: Json)
    requires ParamSlot(doc, p).Ok?
    ensures var slot := ParamSlot(doc, p).value;
      (PropKey(p).Some? <==> slot.Some? && slot.value.node.Some?) &&
      (PropKey(p).Some? ==> PropKey(p).value == slot.value.key)
  {
  }
}
