/**
 * The tool description of `generateToolDefinition` and the generator
 * `generateEndpointToolCode` (src/services/generateEndpointToolCode.ts):
 * the endpoint, its name, input schema and description filled into the
 * templates, and the validation of the result.
 *
 * The `inputSchema` object is written into the definition by
 * `JSON.stringify` and two quote-rewriting replacements; that rendering is
 * the parameter `render`.
 */
module ToolCode {
  import opened Text
  import opened Json
  import opened ToolNaming
  import opened EndpointTool
  import opened ValidateSchema
  import opened ToolTemplate

  // ---------------------------------------------------------------- the description

  /** `[endpoint.summary, endpoint.description].filter(Boolean).join('. ')`. */
  function UserText(ep: Json): string
  {
    var s := Get(ep, "summary");
    var d := Get(ep, "description");
    if TruthyOpt(s) && TruthyOpt(d) then ToText(s.value) + ". " + ToText(d.value)
    else if TruthyOpt(s) then ToText(s.value)
    else if TruthyOpt(d) then ToText(d.value)
    else ""
  }

  /** `endpoint.operationId ? endpoint.operationId : (endpoint.method || 'unknown')`. */
  function VerbValue(ep: Json): Json
  {
    var id := Get(ep, "operationId");
    if TruthyOpt(id) then id.value else Or(Get(ep, "method"), Str("unknown"))
  }

  /** How `Array.prototype.join` writes an element that may be `undefined`. */
  function NameText(name: Option<Json>): string
  {
    if name.None? then "" else ElemText(name.value)
  }

  /** `.filter(p => p.required).map(p => p.name)`; the filter throws on a `null` parameter. */
  function RequiredParamNames(ps: seq<Json>): (r: Result<seq<string>>)
    ensures r.Ok? ==> |r.value| <= |ps|
    ensures r.Err? <==> exists i :: 0 <= i < |ps| && ps[i].JNull?
  {
    if ps == [] then Ok([])
    else if ps[0].JNull? then Err(NullRead("required"))
    else
      match RequiredParamNames(ps[1..])
      case Err(m) => Err(m)
      case Ok(rest) => Ok((if TruthyOpt(Get(ps[0], "required")) then [NameText(Get(ps[0], "name"))] else []) + rest)
  }

  /** One parameter: its name exactly when its `required` is truthy, and the `null` read otherwise fails. */
  lemma RequiredNamesOne(p: Json)
    ensures p.JNull? ==> RequiredParamNames([p]) == Err(NullRead("required"))
    ensures !p.JNull? && TruthyOpt(Get(p, "required")) ==> RequiredParamNames([p]) == Ok([NameText(Get(p, "name"))])
    ensures !p.JNull? && !TruthyOpt(Get(p, "required")) ==> RequiredParamNames([p]) == Ok([])
  {
    assert [p][1..] == [];
    assert RequiredParamNames([p][1..]) == Ok([]);
    assert [NameText(Get(p, "name"))] + [] == [NameText(Get(p, "name"))];
  }

  /**
   * The names of two runs of parameters are the first run's names followed
   * by the second's, and the first failure wins: together with
   * `RequiredNamesOne`, the names are those of the required parameters, in
   * parameter order.
   */
  lemma {:induction false} RequiredNamesAppend(a: seq<Json>, b: seq<Json>)
    ensures RequiredParamNames(a + b) ==
      if RequiredParamNames(a).Err? then RequiredParamNames(a)
      else if RequiredParamNames(b).Err? then RequiredParamNames(b)
      else Ok(RequiredParamNames(a).value + RequiredParamNames(b).value)
  {
    if a == [] {
      assert a + b == b;
      assert RequiredParamNames(a) == Ok([]);
      if RequiredParamNames(b).Ok? {
        assert [] + RequiredParamNames(b).value == RequiredParamNames(b).value;
      }
    } else {
      assert (a + b)[0] == a[0];
      assert (a + b)[1..] == a[1..] + b;
      RequiredNamesAppend(a[1..], b);
      if !a[0].JNull? {
        var head: seq<string> := if TruthyOpt(Get(a[0], "required")) then [NameText(Get(a[0], "name"))] else [];
        var rest := RequiredParamNames(a[1..]);
        if rest.Ok? && RequiredParamNames(b).Ok? {
          var tail := RequiredParamNames(b).value;
          assert RequiredParamNames(a) == Ok(head + rest.value);
          assert RequiredParamNames(a + b) == Ok(head + (rest.value + tail));
          assert head + (rest.value + tail) == (head + rest.value) + tail;
        }
      }
    }
  }

  /** The sentence naming the required parameters, when there are any. */
  function ParamsSentence(ep: Json): Result<string>
  {
    var ps := Get(ep, "parameters");
    if !TruthyOpt(ps) then Ok("")
    else match ps.value
      case JArr(items) =>
        if |items| == 0 then Ok("")
        else
          (match RequiredParamNames(items)
           case Err(m) => Err(m)
           case Ok(names) => Ok(if |names| > 0 then RequiresPrefix + Join(names, ", ") + ". " else ""))
      case JStr(_) => Err(FilterError)
      case _ => Ok("")
  }

  /** The sentence about the `200` response, when there is one. */
  function ResponseSentence(ep: Json): string
  {
    var rs := Get(ep, "responses");
    if TruthyOpt(rs) && TruthyOpt(Get(rs.value, "200")) then
      SuccessPrefix + ToText(Or(Get(Get(rs.value, "200").value, "description"), Str("200 response"))) + "."
    else ""
  }

  const Instructions := "AI INSTRUCTIONS: This endpoint allows you to "
  const RequiresPrefix := "It requires the following parameters: "
  const SuccessPrefix := "On success, it returns a "
  const FilterError := "endpoint.parameters.filter is not a function"
  const LowerCaseError := "method.toLowerCase is not a function"

  /** The instructions: the verb in lower case, the parameters sentence and the response sentence. */
  function Instructed(verb: string, params: string, response: string): string
  {
    Instructions + Lower(verb) + " resources. " + params + response
  }

  /** The user-facing text, when there is any, and a space before the instructions. */
  function Described(user: string, ai: string): string
  {
    (if user != "" then user + " " else "") + ai
  }

  /**
   * The description of `generateToolDefinition`: the summary and description
   * when there are any, a space, then the instructions naming the verb, the
   * required parameters and the success response.
   */
  function ToolDescription(ep: Json): (r: Result<string>)
    ensures !VerbValue(ep).JStr? ==> r == Err(LowerCaseError)
    ensures VerbValue(ep).JStr? && ParamsSentence(ep).Err? ==> r == Err(ParamsSentence(ep).msg)
  {
    var verb := VerbValue(ep);
    if !verb.JStr? then Err(LowerCaseError)
    else
      match ParamsSentence(ep)
      case Err(m) => Err(m)
      case Ok(params) => Ok(Described(UserText(ep), Instructed(verb.s, params, ResponseSentence(ep))))
  }

  lemma InstructedShape(verb: string, params: string, response: string)
    ensures StartsWith(Instructed(verb, params, response), Instructions)
    ensures EndsWith(Instructed(verb, params, response), params + response)
  {
    var i := Instructed(verb, params, response);
    var head := Instructions + Lower(verb) + " resources. ";
    assert i == head + (params + response);
    assert i[..|Instructions|] == Instructions;
    assert i[|i| - |params + response|..] == params + response;
  }

  lemma DescribedShape(user: string, ai: string, p: string, q: string)
    requires StartsWith(ai, p) && EndsWith(ai, q)
    ensures user == "" ==> StartsWith(Described(user, ai), p)
    ensures user != "" ==> StartsWith(Described(user, ai), user + " " + p)
    ensures EndsWith(Described(user, ai), q)
  {
    var d := Described(user, ai);
    if user != "" {
      assert d == (user + " ") + ai;
      assert d[..|user + " " + p|] == (user + " ") + ai[..|p|];
      assert d[|d| - |q|..] == ai[|ai| - |q|..];
    } else {
      assert d == ai;
    }
  }

  /**
   * A description starts with the summary text and a space, or straight with
   * the instructions when there is no summary text, and ends with the
   * parameters and response sentences.
   */
  lemma DescriptionShape(ep: Json)
    ensures ToolDescription(ep).Ok? && UserText(ep) == "" ==> StartsWith(ToolDescription(ep).value, Instructions)
    ensures ToolDescription(ep).Ok? && UserText(ep) != "" ==>
      StartsWith(ToolDescription(ep).value, UserText(ep) + " " + Instructions)
    ensures ToolDescription(ep).Ok? ==>
      EndsWith(ToolDescription(ep).value, ParamsSentence(ep).value + ResponseSentence(ep))
  {
    var verb := VerbValue(ep);
    if verb.JStr? && ParamsSentence(ep).Ok? {
      var params := ParamsSentence(ep).value;
      var ai := Instructed(verb.s, params, ResponseSentence(ep));
      InstructedShape(verb.s, params, ResponseSentence(ep));
      DescribedShape(UserText(ep), ai, Instructions, params + ResponseSentence(ep));
    }
  }

  // ---------------------------------------------------------------- the generator

  /** The arguments of `generateEndpointToolCode`. */
  datatype ToolRequest = ToolRequest(path: string, m: string, swaggerFilePath: string, opts: NameOptions)

  /** What the templates are filled with for an endpoint; `summary || ''` and `description || ''` in the doc comment. */
  function Parts(toolName: string, ep: Json, description: string, schemaText: string, req: ToolRequest): ToolParts
  {
    ToolParts(toolName, ToText(Or(Get(ep, "summary"), Str(""))), ToText(Or(Get(ep, "description"), Str(""))),
      description, schemaText, req.m, req.path)
  }

  const Failure := "Error generating endpoint tool code: "
  const IncludesError := "operationId.includes is not a function"
  const PathRequired := "Swagger file path is required"
  const FileMissing := "Swagger file not found at "

  /** The code when it passes the validator, the validator's report otherwise. */
  function Reported(code: string): string
  {
    var errors := CheckErrors(code);
    if errors == [] then code else FormatValidationErrors(errors)
  }

  /**
   * The body of the generator's `try` block once the endpoint is found: its
   * tool name, input schema and description, the code, and the validation
   * report in place of the code when a check fails.  Errors are the
   * messages thrown on the way.
   */
  function EndpointCode(doc: Json, ep: Json, req: ToolRequest, render: Json -> string): Result<string>
  {
    var id := Get(ep, "operationId");
    if TruthyOpt(id) && !id.value.JStr? then Err(IncludesError)
    else
      var name := ToolName(req.m, req.path, StringAt(ep, "operationId"), req.opts);
      match InputSchema(doc, ep)
      case Err(m) => Err(m)
      case Ok(schema) =>
        match ToolDescription(ep)
        case Err(m) => Err(m)
        case Ok(d) => Ok(Reported(CodeText(Parts(name, ep, d, render(schema), req))))
  }

  /**
   * The generator on a parsed document: every error thrown while finding
   * the endpoint or building its code is reported with the generator's
   * prefix.
   */
  function ToolCodeFor(doc: Json, req: ToolRequest, render: Json -> string): (r: Result<string>)
    ensures FindEndpoint(doc, req.path, req.m).Err? ==> r == Err(Failure + FindEndpoint(doc, req.path, req.m).msg)
    ensures FindEndpoint(doc, req.path, req.m).Ok? ==>
      var c := EndpointCode(doc, FindEndpoint(doc, req.path, req.m).value, req, render);
      (c.Err? ==> r == Err(Failure + c.msg)) && (c.Ok? ==> r == c)
  {
    match FindEndpoint(doc, req.path, req.m)
    case Err(m) => Err(Failure + m)
    case Ok(ep) =>
      match EndpointCode(doc, ep, req, render)
      case Err(m) => Err(Failure + m)
      case Ok(code) => Ok(code)
  }

  /** The steps of `EndpointCode`, one call after another. */
  method EndpointToolCode(doc: Json, ep: Json, req: ToolRequest, render: Json -> string) returns (r: Result<string>)
    ensures r == EndpointCode(doc, ep, req, render)
  {
    var id := Get(ep, "operationId");
    if TruthyOpt(id) && !id.value.JStr? {
      return Err(IncludesError);
    }
    var toolName := GenerateToolName(req.m, req.path, StringAt(ep, "operationId"), req.opts);
    var inputSchema := GenerateInputSchema(doc, ep);
    if inputSchema.Err? {
      return Err(inputSchema.msg);
    }
    var description := ToolDescription(ep);
    if description.Err? {
      return Err(description.msg);
    }
    var code := ValidatedCode(CodeText(Parts(toolName, ep, description.value, render(inputSchema.value), req)));
    r := Ok(code);
  }

  /** The generated code checked by the validator: the code itself, or the report in its place. */
  method ValidatedCode(code: string) returns (r: string)
    ensures r == Reported(code)
  {
    var isValid, errors := ValidateMCPSchema(code);
    if !isValid {
      return FormatValidationErrors(errors);
    }
    r := code;
  }

  /**
   * `generateEndpointToolCode`, with the file system as the map `files`
   * from file paths to parsed documents.
   */
  method GenerateEndpointToolCode(files: map<string, Json>, req: ToolRequest, render: Json -> string)
    returns (r: Result<string>)
    ensures req.swaggerFilePath == "" ==> r == Err(Failure + PathRequired)
    ensures req.swaggerFilePath != "" && req.swaggerFilePath !in files ==>
      r == Err(Failure + FileMissing + req.swaggerFilePath)
    ensures req.swaggerFilePath != "" && req.swaggerFilePath in files ==>
      r == ToolCodeFor(files[req.swaggerFilePath], req, render)
  {
    if req.swaggerFilePath == "" {
      return Err(Failure + PathRequired);
    }
    if req.swaggerFilePath !in files {
      return Err(Failure + FileMissing + req.swaggerFilePath);
    }
    var doc := files[req.swaggerFilePath];
    var found := FindEndpoint(doc, req.path, req.m);
    if found.Err? {
      return Err(Failure + found.msg);
    }
    r := EndpointToolCode(doc, found.value, req, render);
    if r.Err? {
      r := Err(Failure + r.msg);
    }
  }

  /** When the checks pass, the generator returns the code itself. */
  lemma CodeReturned(doc: Json, req: ToolRequest, render: Json -> string, ep: Json, schema: Json, d: string)
    requires FindEndpoint(doc, req.path, req.m) == Ok(ep)
    requires !TruthyOpt(Get(ep, "operationId")) || Get(ep, "operationId").value.JStr?
    requires InputSchema(doc, ep) == Ok(schema) && ToolDescription(ep) == Ok(d)
    requires var name := ToolName(req.m, req.path, StringAt(ep, "operationId"), req.opts);
      name != "" && IsWordChar(name[0]) && forall k :: 0 <= k < |name| ==> !IsQuote(name[k])
    requires StartsWith(render(schema), "{") && Contains(render(schema), ObjectType)
    ensures ToolCodeFor(doc, req, render) ==
      Ok(CodeText(Parts(ToolName(req.m, req.path, StringAt(ep, "operationId"), req.opts), ep, d, render(schema), req)))
  {
    GeneratedCodeValid(Parts(ToolName(req.m, req.path, StringAt(ep, "operationId"), req.opts), ep, d, render(schema), req));
  }
}
