/**
 * The input-schema mapper of the endpoint tool generator
 * (src/services/generateEndpointToolCode.ts): model lookup, the
 * json.Unmarshaler heuristics, the Swagger type table and the recursive
 * normalisation of schema nodes.
 *
 * The source recurses through `$ref`s without a cycle guard.  `Walk` is the
 * corrected walk, which stops at a model already being expanded on the
 * current path; `ProcessSchemaAsWritten` is the source's recursion run with
 * a fuel bound, `None` when the bound is exhausted.  Values JavaScript
 * would store as `undefined` are left out of the produced objects, as
 * `JSON.stringify` leaves them out of the generated text.
 */
module SchemaMapper {
  import opened Text
  import opened Json

  // ---------------------------------------------------------------- model lookup

  /** The keys of a list of fields. */
  function Keys(fs: seq<Field>): set<string>
  {
    set i | 0 <= i < |fs| :: fs[i].key
  }

  function FieldsOf(o: Option<Json>): seq<Field>
  {
    if o.Some? then Fields(o.value) else []
  }

  /** Every name a model can be found under: the keys of `definitions` and of `components.schemas`. */
  function ModelNames(doc: Json): set<string>
  {
    Keys(FieldsOf(Get(doc, "definitions"))) + Keys(FieldsOf(GetOpt(Get(doc, "components"), "schemas")))
  }

  lemma LookupKey(fs: seq<Field>, key: string)
    requires Lookup(fs, key).Some?
    ensures key in Keys(fs)
  {
    LookupFound(fs, key);
    var i :| 0 <= i < |fs| && fs[i] == Field(key, Lookup(fs, key).value);
    assert fs[i].key == key;
  }

  /**
   * `definitions?.[name] || components?.schemas?.[name]`, taken as found
   * only when the value is truthy, as every caller tests `!model`.
   */
  function FindModel(doc: Json, name: string): (r: Option<Json>)
    ensures r.Some? ==> Truthy(r.value) && name in ModelNames(doc)
    ensures var d := GetOpt(Get(doc, "definitions"), name);
      var c := GetOpt(GetOpt(Get(doc, "components"), "schemas"), name);
      (TruthyOpt(d) ==> r == d) && (!TruthyOpt(d) && TruthyOpt(c) ==> r == c)
      && (r.None? <==> !TruthyOpt(d) && !TruthyOpt(c))
  {
    var d := GetOpt(Get(doc, "definitions"), name);
    if TruthyOpt(d) then
      LookupKey(Fields(Get(doc, "definitions").value), name);
      d
    else
      var c := GetOpt(GetOpt(Get(doc, "components"), "schemas"), name);
      if TruthyOpt(c) then
        LookupKey(Fields(GetOpt(Get(doc, "components"), "schemas").value), name);
        c
      else None
  }

  /** The model name a reference points to: the text after its last `/`. */
  function RefName(ref: string): string
  {
    LastSegment(ref)
  }

  // ---------------------------------------------------------------- type table

  /** The Swagger-to-JSON-Schema type table of `mapSwaggerTypeToJsonSchema`. */
  const TypeTable: map<string, string> :=
    map["integer" := "integer", "number" := "number", "string" := "string", "boolean" := "boolean",
        "array" := "array", "object" := "object", "file" := "string"]

  /** `typeMap[swaggerType] || 'string'`: the key is the text of the value, `undefined` when absent. */
  function MapType(t: Option<Json>): (r: string)
    ensures r in {"integer", "number", "string", "boolean", "array", "object"}
    ensures OptText(t) in TypeTable ==> r == TypeTable[OptText(t)]
    ensures OptText(t) !in TypeTable ==> r == "string"
  {
    var key := OptText(t);
    if key in TypeTable then TypeTable[key] else "string"
  }

  // ---------------------------------------------------------------- node builders

  function TypeNode(t: string): Json
  {
    JObj([Field("type", Str(t))])
  }

  /** A property set only when the source's value is truthy. */
  function TruthyField(key: string, o: Option<Json>): seq<Field>
  {
    if TruthyOpt(o) then [Field(key, o.value)] else []
  }

  /** A property the source sets unconditionally: present unless its value is `undefined`. */
  function DefinedField(key: string, o: Option<Json>): seq<Field>
  {
    if o.Some? then [Field(key, o.value)] else []
  }

  /** A processed node: an object whose first property is `type`. */
  predicate IsNode(j: Json)
  {
    j.JObj? && |j.fields| >= 1 && j.fields[0].key == "type"
  }

  /** The JSON Schema kinds the type table maps to. */
  const Kinds: set<string> := {"integer", "number", "string", "boolean", "array", "object"}

  /** A node whose `type` is one of the JSON Schema kinds. */
  predicate KindNode(j: Json)
  {
    IsNode(j) && j.fields[0].value.JStr? && j.fields[0].value.s in Kinds
  }

  /** `t` is the `type` of a model the document defines. */
  ghost predicate ModelType(doc: Json, t: Json)
  {
    exists name :: FindModel(doc, name).Some? && Get(FindModel(doc, name).value, "type") == Some(t)
  }

  /** A node whose `type` is a JSON Schema kind or, copied unmapped, a model's own `type`. */
  ghost predicate TypedNode(doc: Json, j: Json)
  {
    IsNode(j) && (KindNode(j) || ModelType(doc, j.fields[0].value))
  }

  function NotFoundText(name: string): string
  {
    "Model '" + name + "' not found"
  }

  /** The node `extractModelSchema` returns for a model that does not exist. */
  function NotFound(name: string): Json
  {
    JObj([Field("type", Str("object")), Field("description", Str(NotFoundText(name)))])
  }

  /** The node the corrected walk puts where a model refers back to itself. */
  function Recursive(name: string): Json
  {
    JObj([Field("type", Str("object")), Field("description", Str("Model '" + name + "' (recursive reference)"))])
  }

  /** The array branch: `{type: 'array', items, description: schema.description}`. */
  function ArrayNode(s: Json, items: Json): Json
  {
    JObj([Field("type", Str("array")), Field("items", items)] + DefinedField("description", Get(s, "description")))
  }

  /** The object branch, with `required` defaulting to `[]` and the description set when truthy. */
  function ObjectNode(s: Json, props: seq<Field>): Json
  {
    JObj([Field("type", Str("object")), Field("properties", JObj(props)),
          Field("required", Or(Get(s, "required"), JArr([])))]
      + TruthyField("description", Get(s, "description")))
  }

  /** The primitive branch: the mapped type, then description, enum and format when truthy. */
  function Primitive(s: Json): Json
  {
    JObj([Field("type", Str(MapType(Get(s, "type"))))]
      + TruthyField("description", Get(s, "description"))
      + TruthyField("enum", Get(s, "enum"))
      + TruthyField("format", Get(s, "format")))
  }

  // ---------------------------------------------------------------- json.Unmarshaler heuristics

  /** `markers.some(m => name.includes(m))`. */
  predicate AnyIn(name: string, markers: seq<string>)
  {
    exists i :: 0 <= i < |markers| && Contains(name, markers[i])
  }

  const SpecialTypeNames: seq<string> :=
    ["Date", "DateTime", "Time", "Duration", "Timestamp", "Nullable", "Optional", "Slice", "Array", "List",
     "Int64", "Float64", "Bool", "String"]

  const DateTimeNames: seq<string> := ["Date", "DateTime", "Time", "Duration", "Timestamp"]

  /** The model's description, lower-cased, mentions unmarshalling. */
  predicate MentionsUnmarshal(model: Json)
  {
    match StringAt(model, "description")
    case Some(d) => Contains(Lower(d), "unmarshaler") || Contains(Lower(d), "unmarshal")
    case None => false
  }

  /** An object model with exactly one property, a truthy `value`. */
  predicate SingleValue(model: Json)
  {
    var props := Get(model, "properties");
    Get(model, "type") == Some(Str("object")) && TruthyOpt(props)
      && |Entries(props.value)| == 1 && TruthyOpt(Get(props.value, "value"))
  }

  /**
   * `isLikelyUnmarshaler`: a missing model is judged by its name alone, a
   * found one by a date/time name, its description or a single `value`.
   */
  predicate IsLikelyUnmarshaler(doc: Json, name: string)
  {
    match FindModel(doc, name)
    case None => AnyIn(name, SpecialTypeNames)
    case Some(model) => AnyIn(name, DateTimeNames) || MentionsUnmarshal(model) || SingleValue(model)
  }

  /** The item type of a name without `Int`, `Float` and `Bool` is `string`. */
  lemma ItemTypeString(name: string)
    requires !NumberLike(name) && !Contains(name, "Bool")
    ensures ItemType(name) == "string"
  {
    if Contains(name, "Int64Slice") { assert "Int" + "64Slice" == "Int64Slice"; ContainsFront(name, "Int", "64Slice"); }
    if Contains(name, "IntArray") { assert "Int" + "Array" == "IntArray"; ContainsFront(name, "Int", "Array"); }
    if Contains(name, "Float64Slice") { assert "Float" + "64Slice" == "Float64Slice"; ContainsFront(name, "Float", "64Slice"); }
    if Contains(name, "FloatArray") { assert "Float" + "Array" == "FloatArray"; ContainsFront(name, "Float", "Array"); }
    if Contains(name, "BoolSlice") { assert "Bool" + "Slice" == "BoolSlice"; ContainsFront(name, "Bool", "Slice"); }
    if Contains(name, "BoolArray") { assert "Bool" + "Array" == "BoolArray"; ContainsFront(name, "Bool", "Array"); }
  }

  /** The item type guessed for a missing slice or array model. */
  function ItemType(name: string): string
  {
    if Contains(name, "Int64Slice") || Contains(name, "IntArray") then "integer"
    else if Contains(name, "Float64Slice") || Contains(name, "FloatArray") then "number"
    else if Contains(name, "BoolSlice") || Contains(name, "BoolArray") then "boolean"
    else "string"
  }

  predicate DateLike(name: string) { Contains(name, "Date") || Contains(name, "Time") }

  predicate NumberLike(name: string) { Contains(name, "Int") || Contains(name, "Float") || Contains(name, "Number") }

  predicate ListLike(name: string) { Contains(name, "Slice") || Contains(name, "Array") || Contains(name, "List") }

  /**
   * The type guessed from the name of a model that does not exist: date and
   * time names first, then numeric, then boolean, then list names, else a
   * string.  The description starts with the not-found text.  The item type
   * of a list is always `string`: every name `ItemType` tests for contains
   * `Int`, `Float` or `Bool` and has taken an earlier rule.
   */
  function Inferred(name: string): (r: Json)
    ensures KindNode(r) && |r.fields| >= 2
    ensures DateLike(name) ==>
      r.fields[..2] == [Field("type", Str("string")), Field("format", Str(if Contains(name, "Time") then "date-time" else "date"))]
    ensures !DateLike(name) && NumberLike(name) ==>
      r.fields[0] == Field("type", Str(if Contains(name, "Float") then "number" else "integer"))
    ensures !DateLike(name) && !NumberLike(name) && Contains(name, "Bool") ==>
      r.fields[0] == Field("type", Str("boolean"))
    ensures !DateLike(name) && !NumberLike(name) && !Contains(name, "Bool") && ListLike(name) ==>
      r.fields[..2] == [Field("type", Str("array")), Field("items", TypeNode("string"))]
    ensures !DateLike(name) && !NumberLike(name) && !Contains(name, "Bool") && !ListLike(name) ==>
      r == JObj([Field("type", Str("string")), Field("description", Str(NotFoundText(name)))])
    ensures var d := r.fields[|r.fields| - 1];
      d.key == "description" && d.value.JStr? && StartsWith(d.value.s, NotFoundText(name))
  {
    var base := NotFoundText(name);
    if DateLike(name) then
      var time := Contains(name, "Time");
      var d := base + " - Inferred as a date" + (if time then "-time" else "") + " value";
      assert d[..|base|] == base;
      JObj([Field("type", Str("string")), Field("format", Str(if time then "date-time" else "date")),
            Field("description", Str(d))])
    else if NumberLike(name) then
      var d := base + " - Inferred as a numeric value";
      assert d[..|base|] == base;
      JObj([Field("type", Str(if Contains(name, "Float") then "number" else "integer")), Field("description", Str(d))])
    else if Contains(name, "Bool") then
      var d := base + " - Inferred as a boolean value";
      assert d[..|base|] == base;
      JObj([Field("type", Str("boolean")), Field("description", Str(d))])
    else if ListLike(name) then
      var d := base + " - Inferred as an array";
      assert d[..|base|] == base;
      ItemTypeString(name);
      JObj([Field("type", Str("array")), Field("items", TypeNode(ItemType(name))), Field("description", Str(d))])
    else
      assert base[..|base|] == base;
      JObj([Field("type", Str("string")), Field("description", Str(base))])
  }

  /**
   * A found model that is not one of the named nullable types: an object
   * with a `value` property becomes that property's primitive type, the
   * value's description following the model's in parentheses; anything
   * else keeps only its type and description.
   */
  function Unwrapped(model: Json, name: string): (r: Json)
    ensures IsNode(r) && (KindNode(r) || Get(model, "type") == Some(r.fields[0].value))
    ensures ValueWrapper(model) ==> KindNode(r)
    ensures !ValueWrapper(model) ==> r == JObj([Field("type", Or(Get(model, "type"), Str("object"))),
      Field("description", Or(Get(model, "description"), Str("Model '" + name + "'")))])
  {
    var props := Get(model, "properties");
    if ValueWrapper(model) then
      var vp := Get(props.value, "value").value;
      var md := Get(model, "description");
      var vd := Get(vp, "description");
      var typed := [Field("type", Str(MapType(Some(Or(Get(vp, "type"), Str("string"))))))];
      var described := typed + TruthyField("description", md) + TruthyField("format", Get(vp, "format"));
      var joined := if TruthyOpt(md) then Str(ToText(md.value) + " (" + OptText(vd) + ")") else Or(vd, JNull);
      JObj(if TruthyOpt(vd) then Put(described, "description", joined) else described)
    else
      JObj([Field("type", Or(Get(model, "type"), Str("object"))),
            Field("description", Or(Get(model, "description"), Str("Model '" + name + "'")))])
  }

  /** An object model with a truthy `value` property. */
  predicate ValueWrapper(model: Json)
  {
    var props := Get(model, "properties");
    Get(model, "type") == Some(Str("object")) && TruthyOpt(props) && TruthyOpt(Get(props.value, "value"))
  }

  predicate NullableIntSlice(name: string)
  {
    Contains(name, "NullableInt64Slice") || Contains(name, "NullableIntSlice")
  }

  /**
   * `processUnmarshalerType`: the three named nullable types first, whether
   * or not the model exists; then inference for a missing model and
   * unwrapping for a found one.
   */
  function ProcessUnmarshalerType(doc: Json, name: string): (r: Json)
    ensures IsNode(r)
    ensures KindNode(r) || (FindModel(doc, name).Some? && Get(FindModel(doc, name).value, "type") == Some(r.fields[0].value))
    ensures Contains(name, "NullableDate") ==> |r.fields| == 3 && r.fields[..2] == [Field("type", Str("string")), Field("format", Str("date"))]
    ensures !Contains(name, "NullableDate") && NullableIntSlice(name) ==>
      |r.fields| == 3 && r.fields[..2] == [Field("type", Str("array")), Field("items", TypeNode("integer"))]
    ensures !Contains(name, "NullableDate") && !NullableIntSlice(name) && Contains(name, "NullableTaskPriority") ==>
      |r.fields| == 3 && r.fields[..2] == [Field("type", Str("string")), Field("enum", JArr([Str("low"), Str("normal"), Str("high")]))]
    ensures !Contains(name, "NullableDate") && !NullableIntSlice(name) && !Contains(name, "NullableTaskPriority") ==>
      r == (if FindModel(doc, name).None? then Inferred(name) else Unwrapped(FindModel(doc, name).value, name))
  {
    var model := FindModel(doc, name);
    var md := GetOpt(model, "description");
    if Contains(name, "NullableDate") then
      JObj([Field("type", Str("string")), Field("format", Str("date")),
            Field("description", Or(md, Str("A nullable date value (format: YYYY-MM-DD)")))])
    else if NullableIntSlice(name) then
      JObj([Field("type", Str("array")), Field("items", TypeNode("integer")),
            Field("description", Or(md, Str("A nullable array of integers")))])
    else if Contains(name, "NullableTaskPriority") then
      JObj([Field("type", Str("string")), Field("enum", JArr([Str("low"), Str("normal"), Str("high")])),
            Field("description", Or(md, Str("A nullable task priority value")))])
    else if model.None? then Inferred(name)
    else Unwrapped(model.value, name)
  }

  // ---------------------------------------------------------------- the corrected walk

  /**
   * The outcome of a walk: the node produced, whether the cycle guard cut
   * the walk anywhere, and how deeply the source's `processSchema` calls
   * nest on the same input.
   */
  datatype Walked = Walked(node: Json, cut: bool, depth: nat)

  /** The models that can still be entered on the current path. */
  function Budget(doc: Json, visiting: set<string>): nat
  {
    |ModelNames(doc) - visiting|
  }

  lemma BudgetShrinks(doc: Json, visiting: set<string>, name: string)
    requires name in ModelNames(doc) && name !in visiting
    ensures Budget(doc, visiting + {name}) < Budget(doc, visiting)
  {
    var all := ModelNames(doc);
    assert all - visiting == (all - (visiting + {name})) + {name};
  }

  /** An entry of a string's `Object.entries`, which never recurses: `{type: 'string'}`, or `{type: 'object'}` for an empty one. */
  function Leaf(v: Json): Json
  {
    if Truthy(v) then Primitive(v) else TypeNode("object")
  }

  /**
   * `processSchema` with a cycle guard: the null check, then `$ref` (the
   * wrapper heuristic, else the model), then arrays with items, then
   * objects, then primitives.
   */
  function Walk(doc: Json, s: Json, visiting: set<string>): (w: Walked)
    ensures IsNode(w.node) && w.depth >= 1
    ensures TypedNode(doc, w.node)
    decreases 2 * Budget(doc, visiting) + 2, s, 1
  {
    if !Truthy(s) then Walked(TypeNode("object"), false, 1)
    else match RefOf(s)
      case Some(ref) => WalkRef(doc, RefName(ref), visiting)
      case None =>
        var items := Get(s, "items");
        var props := Get(s, "properties");
        if Get(s, "type") == Some(Str("array")) && TruthyOpt(items) then
          var w := Walk(doc, items.value, visiting);
          Walked(ArrayNode(s, w.node), w.cut, w.depth + 1)
        else if Get(s, "type") == Some(Str("object")) || TruthyOpt(props) then
          var p := if TruthyOpt(props) then WalkProps(doc, Entries(props.value), visiting, s) else Walked(JObj([]), false, 0);
          Walked(ObjectNode(s, p.node.fields), p.cut, p.depth + 1)
        else Walked(Primitive(s), false, 1)
  }

  /** A `$ref` to `name`: the wrapper heuristic first, else the model itself. */
  function WalkRef(doc: Json, name: string, visiting: set<string>): (w: Walked)
    ensures IsNode(w.node) && w.depth >= 1
    ensures TypedNode(doc, w.node)
    decreases 2 * Budget(doc, visiting) + 1
  {
    if IsLikelyUnmarshaler(doc, name) then Walked(ProcessUnmarshalerType(doc, name), false, 1)
    else
      var m := WalkModel(doc, name, visiting);
      Walked(m.node, m.cut, m.depth + 1)
  }

  /** `extractModelSchema` with the guard: a model already on the path is not entered again. */
  function WalkModel(doc: Json, name: string, visiting: set<string>): (w: Walked)
    ensures IsNode(w.node) && TypedNode(doc, w.node)
    ensures FindModel(doc, name).None? ==> w == Walked(NotFound(name), false, 0)
    decreases 2 * Budget(doc, visiting)
  {
    match FindModel(doc, name)
    case None => Walked(NotFound(name), false, 0)
    case Some(model) =>
      if name in visiting then Walked(Recursive(name), true, 0)
      else
        BudgetShrinks(doc, visiting, name);
        Walk(doc, model, visiting + {name})
  }

  /** The properties loop: each entry's processed schema assigned under its key, in entry order. */
  function WalkProps(doc: Json, entries: seq<Field>, visiting: set<string>, ghost parent: Json): (w: Walked)
    requires forall i :: 0 <= i < |entries| ==> entries[i].value < parent || entries[i].value.JStr?
    ensures w.node.JObj?
    decreases 2 * Budget(doc, visiting) + 2, parent, 0, |entries|
  {
    if entries == [] then Walked(JObj([]), false, 0)
    else
      var init := WalkProps(doc, entries[..|entries| - 1], visiting, parent);
      var e := entries[|entries| - 1];
      var c := if e.value.JStr? then Walked(Leaf(e.value), false, 1) else Walk(doc, e.value, visiting);
      Walked(JObj(Put(init.node.fields, e.key, c.node)), init.cut || c.cut,
        if init.depth < c.depth then c.depth else init.depth)
  }

  /** `processSchema(swaggerDefinition, schema)` for a top-level schema. */
  function MapSchema(doc: Json, s: Json): (r: Json)
    ensures IsNode(r) && TypedNode(doc, r)
  {
    Walk(doc, s, {}).node
  }

  /** `extractModelSchema(swaggerDefinition, name)` for a top-level reference. */
  function ExtractModel(doc: Json, name: string): (r: Json)
    ensures IsNode(r) && TypedNode(doc, r)
  {
    WalkModel(doc, name, {}).node
  }

  // ---------------------------------------------------------------- the mapper as a program

  /** `processSchema` with the cycle guard, filling the properties of an object node in a loop. */
  method ProcessSchema(doc: Json, s: Json, visiting: set<string>) returns (r: Json)
    ensures r == Walk(doc, s, visiting).node
    decreases 2 * Budget(doc, visiting) + 2, s, 1
  {
    if !Truthy(s) {
      return TypeNode("object");
    }
    match RefOf(s)
    case Some(ref) =>
      var name := RefName(ref);
      if IsLikelyUnmarshaler(doc, name) {
        return ProcessUnmarshalerType(doc, name);
      }
      r := ExtractModelSchema(doc, name, visiting);
    case None =>
      var items := Get(s, "items");
      var props := Get(s, "properties");
      if Get(s, "type") == Some(Str("array")) && TruthyOpt(items) {
        var child := ProcessSchema(doc, items.value, visiting);
        return ArrayNode(s, child);
      }
      if Get(s, "type") == Some(Str("object")) || TruthyOpt(props) {
        var fields := [];
        if TruthyOpt(props) {
          fields := ProcessProperties(doc, Entries(props.value), visiting, s);
        }
        return ObjectNode(s, fields);
      }
      r := Primitive(s);
  }

  /** `for (const [propName, propSchema] of Object.entries(schema.properties))`. */
  method ProcessProperties(doc: Json, entries: seq<Field>, visiting: set<string>, ghost parent: Json)
    returns (fields: seq<Field>)
    requires forall i :: 0 <= i < |entries| ==> entries[i].value < parent || entries[i].value.JStr?
    ensures fields == WalkProps(doc, entries, visiting, parent).node.fields
    decreases 2 * Budget(doc, visiting) + 2, parent, 0, 1
  {
    fields := [];
    var i := 0;
    while i < |entries|
      invariant 0 <= i <= |entries|
      invariant fields == WalkProps(doc, entries[..i], visiting, parent).node.fields
    {
      var child := ProcessEntry(doc, entries[i].value, visiting, parent);
      WalkPropsStep(doc, entries, i, visiting, parent);
      fields := Put(fields, entries[i].key, child);
      i := i + 1;
    }
    assert entries[..i] == entries;
  }

  /** The processed schema of one property. */
  method ProcessEntry(doc: Json, v: Json, visiting: set<string>, ghost parent: Json) returns (child: Json)
    requires v < parent || v.JStr?
    ensures child == (if v.JStr? then Leaf(v) else Walk(doc, v, visiting).node)
    decreases 2 * Budget(doc, visiting) + 2, parent, 0, 0
  {
    if v.JStr? {
      child := Leaf(v);
    } else {
      child := ProcessSchema(doc, v, visiting);
    }
  }

  /** One more entry assigns its processed schema under its key. */
  lemma WalkPropsStep(doc: Json, entries: seq<Field>, i: nat, visiting: set<string>, parent: Json)
    requires i < |entries|
    requires forall k :: 0 <= k < |entries| ==> entries[k].value < parent || entries[k].value.JStr?
    ensures WalkProps(doc, entries[..i + 1], visiting, parent).node.fields
      == Put(WalkProps(doc, entries[..i], visiting, parent).node.fields, entries[i].key,
          if entries[i].value.JStr? then Leaf(entries[i].value) else Walk(doc, entries[i].value, visiting).node)
  {
    assert entries[..i + 1][..i] == entries[..i];
  }

  /** `extractModelSchema` with the cycle guard. */
  method ExtractModelSchema(doc: Json, name: string, visiting: set<string>) returns (r: Json)
    ensures r == WalkModel(doc, name, visiting).node
    decreases 2 * Budget(doc, visiting)
  {
    var model := FindModel(doc, name);
    if model.None? {
      return NotFound(name);
    }
    if name in visiting {
      return Recursive(name);
    }
    BudgetShrinks(doc, visiting, name);
    r := ProcessSchema(doc, model.value, visiting + {name});
  }

  // ---------------------------------------------------------------- properties of the mapping

  /** A schema with a `$ref` walks as the reference alone. */
  lemma WalkOfRef(doc: Json, s: Json, ref: string, visiting: set<string>)
    requires RefOf(s) == Some(ref)
    ensures Walk(doc, s, visiting) == WalkRef(doc, RefName(ref), visiting)
  {
    assert Truthy(s);
  }

  /** A `$ref` decides the node alone: the schema's other keys are never read. */
  lemma RefIgnoresSiblings(doc: Json, s: Json, ref: string)
    requires RefOf(s) == Some(ref)
    ensures MapSchema(doc, s) == MapSchema(doc, JObj([Field("$ref", Str(ref))]))
  {
    var bare := JObj([Field("$ref", Str(ref))]);
    assert RefOf(bare) == Some(ref);
    WalkOfRef(doc, s, ref, {});
    WalkOfRef(doc, bare, ref, {});
  }

  /**
   * A `$ref` to a model that does not exist is inferred from its name when
   * one of the fourteen markers occurs in it, and is the not-found node otherwise.
   */
  lemma MissingModel(doc: Json, s: Json, ref: string)
    requires RefOf(s) == Some(ref) && FindModel(doc, RefName(ref)).None?
    ensures MapSchema(doc, s) ==
      if AnyIn(RefName(ref), SpecialTypeNames) then ProcessUnmarshalerType(doc, RefName(ref)) else NotFound(RefName(ref))
  {
    WalkOfRef(doc, s, ref, {});
  }

  /** A `$ref` to a found model that is not a wrapper expands to the model's own mapping. */
  lemma FoundModelExpanded(doc: Json, s: Json, ref: string, model: Json)
    requires RefOf(s) == Some(ref) && FindModel(doc, RefName(ref)) == Some(model)
    requires !IsLikelyUnmarshaler(doc, RefName(ref))
    ensures MapSchema(doc, s) == ExtractModel(doc, RefName(ref)) == Walk(doc, model, {RefName(ref)}).node
  {
    var name := RefName(ref);
    var none: set<string> := {};
    assert none + {name} == {name};
    WalkOfRef(doc, s, ref, {});
  }

  /** A date or time name marks a wrapper whether or not its model exists. */
  lemma DateTimeNameIsWrapper(doc: Json, name: string)
    requires AnyIn(name, DateTimeNames)
    ensures IsLikelyUnmarshaler(doc, name)
  {
    var i :| 0 <= i < |DateTimeNames| && Contains(name, DateTimeNames[i]);
    assert DateTimeNames[i] == SpecialTypeNames[i];
  }

  /** An array with items comes before the object test: its items are mapped and the array node built around them. */
  lemma ArrayBeforeObject(doc: Json, s: Json)
    requires RefOf(s).None? && Get(s, "type") == Some(Str("array")) && TruthyOpt(Get(s, "items"))
    ensures MapSchema(doc, s) == ArrayNode(s, MapSchema(doc, Get(s, "items").value))
  {
    assert Truthy(s);
  }

  /** An object node's `required` is the schema's own when truthy, `[]` otherwise. */
  lemma ObjectRequired(doc: Json, s: Json)
    requires RefOf(s).None? && !(Get(s, "type") == Some(Str("array")) && TruthyOpt(Get(s, "items")))
    requires Get(s, "type") == Some(Str("object")) || TruthyOpt(Get(s, "properties"))
    ensures Lookup(MapSchema(doc, s).fields, "required") == Some(Or(Get(s, "required"), JArr([])))
    ensures Lookup(MapSchema(doc, s).fields, "type") == Some(Str("object"))
  {
    var props := Get(s, "properties");
    var p := if TruthyOpt(props) then WalkProps(doc, Entries(props.value), {}, s) else Walked(JObj([]), false, 0);
    assert Truthy(s);
    assert MapSchema(doc, s) == ObjectNode(s, p.node.fields);
    ObjectNodeFields(s, p.node.fields);
  }

  lemma ObjectNodeFields(s: Json, props: seq<Field>)
    ensures Lookup(ObjectNode(s, props).fields, "required") == Some(Or(Get(s, "required"), JArr([])))
    ensures Lookup(ObjectNode(s, props).fields, "type") == Some(Str("object"))
  {
    var fs := ObjectNode(s, props).fields;
    assert fs[0].key == "type" && fs[1].key == "properties" && fs[2] == Field("required", Or(Get(s, "required"), JArr([])));
    assert Lookup(fs, "required") == Lookup(fs[1..], "required") == Lookup(fs[2..], "required");
  }

  /** Any other truthy schema is a primitive whose type goes through the type table. */
  lemma PrimitiveType(doc: Json, s: Json)
    requires Truthy(s) && RefOf(s).None? && !(Get(s, "type") == Some(Str("array")) && TruthyOpt(Get(s, "items")))
    requires Get(s, "type") != Some(Str("object")) && !TruthyOpt(Get(s, "properties"))
    ensures MapSchema(doc, s) == Primitive(s)
    ensures Lookup(MapSchema(doc, s).fields, "type") == Some(Str(MapType(Get(s, "type"))))
  {
    assert Walk(doc, s, {}).node == Primitive(s);
  }

  /** A string entry of a `properties` loop maps as `processSchema` would map it. */
  lemma StringEntry(doc: Json, x: string, visiting: set<string>)
    ensures Walk(doc, JStr(x), visiting).node == Leaf(JStr(x))
  {
    assert Get(JStr(x), "$ref").None?;
  }

  /** The keys of a list of fields, in order. */
  function KeyList(fs: seq<Field>): (r: seq<string>)
    ensures |r| == |fs| && forall i :: 0 <= i < |fs| ==> r[i] == fs[i].key
  {
    seq(|fs|, i requires 0 <= i < |fs| => fs[i].key)
  }

  predicate DistinctKeys(fs: seq<Field>)
  {
    forall i, j :: 0 <= i < j < |fs| ==> fs[i].key != fs[j].key
  }

  /** Distinct property keys come out once each, in the order they were declared. */
  lemma {:induction false} PropsInOrder(doc: Json, entries: seq<Field>, visiting: set<string>, parent: Json)
    requires forall i :: 0 <= i < |entries| ==> entries[i].value < parent || entries[i].value.JStr?
    requires DistinctKeys(entries)
    ensures KeyList(WalkProps(doc, entries, visiting, parent).node.fields) == KeyList(entries)
  {
    if entries != [] {
      var init := entries[..|entries| - 1];
      var e := entries[|entries| - 1];
      PrefixKeys(entries, parent);
      PropsInOrder(doc, init, visiting, parent);
      KeysStep(WalkProps(doc, init, visiting, parent).node.fields, entries,
        if e.value.JStr? then Leaf(e.value) else Walk(doc, e.value, visiting).node);
    }
  }

  /** Under distinct keys, each property's value is its own schema processed by `processSchema`. */
  lemma {:induction false} PropsValues(doc: Json, entries: seq<Field>, visiting: set<string>, parent: Json)
    requires forall i :: 0 <= i < |entries| ==> entries[i].value < parent || entries[i].value.JStr?
    requires DistinctKeys(entries)
    ensures forall i :: 0 <= i < |entries| ==>
      Lookup(WalkProps(doc, entries, visiting, parent).node.fields, entries[i].key) == Some(Walk(doc, entries[i].value, visiting).node)
  {
    if entries != [] {
      var n := |entries| - 1;
      var init := entries[..n];
      var e := entries[n];
      PrefixKeys(entries, parent);
      PropsValues(doc, init, visiting, parent);
      var fs := WalkProps(doc, init, visiting, parent).node.fields;
      var c := if e.value.JStr? then Leaf(e.value) else Walk(doc, e.value, visiting).node;
      assert WalkProps(doc, entries, visiting, parent).node.fields == Put(fs, e.key, c);
      if e.value.JStr? {
        StringEntry(doc, e.value.s, visiting);
      }
      forall i | 0 <= i < |entries|
        ensures Lookup(Put(fs, e.key, c), entries[i].key) == Some(Walk(doc, entries[i].value, visiting).node)
      {
        if i < n {
          assert init[i] == entries[i];
          PutOther(fs, e.key, c, entries[i].key);
        }
      }
    }
  }

  /** Dropping the last entry keeps the entries distinct and below `parent`. */
  lemma PrefixKeys(entries: seq<Field>, parent: Json)
    requires entries != []
    requires forall i :: 0 <= i < |entries| ==> entries[i].value < parent || entries[i].value.JStr?
    requires DistinctKeys(entries)
    ensures var init := entries[..|entries| - 1];
      DistinctKeys(init) && forall i :: 0 <= i < |init| ==> init[i].value < parent || init[i].value.JStr?
  {
  }

  /** Assigning the last entry's key after the others gives the entries' keys in order. */
  lemma KeysStep(fs: seq<Field>, entries: seq<Field>, c: Json)
    requires entries != [] && DistinctKeys(entries)
    requires KeyList(fs) == KeyList(entries[..|entries| - 1])
    ensures KeyList(Put(fs, entries[|entries| - 1].key, c)) == KeyList(entries)
  {
    var n := |entries| - 1;
    var init := entries[..n];
    PutFreshKey(fs, init, entries[n].key, c);
    assert entries == init + [entries[n]];
    assert KeyList(entries) == KeyList(init) + [entries[n].key];
  }

  /** Assigning a key none of the fields carries appends it to the key list. */
  lemma PutFreshKey(fs: seq<Field>, init: seq<Field>, key: string, c: Json)
    requires KeyList(fs) == KeyList(init) && forall i :: 0 <= i < |init| ==> init[i].key != key
    ensures KeyList(Put(fs, key, c)) == KeyList(init) + [key]
  {
    forall i | 0 <= i < |fs| ensures fs[i].key != key {
      assert fs[i].key == KeyList(fs)[i] == KeyList(init)[i] == init[i].key;
    }
    LookupAbsent(fs, key);
    PutNew(fs, key, c);
    assert KeyList(fs + [Field(key, c)]) == KeyList(fs) + [key];
  }

  /** A value occurring in a name makes the name contain every part of it. */
  lemma ContainsFront(s: string, p: string, q: string)
    requires Contains(s, p + q)
    ensures Contains(s, p)
  {
    var i :| 0 <= i <= |s| - |p + q| && OccursAt(s, p + q, i);
    assert s[i..i + |p|] == s[i..i + |p + q|][..|p|] == (p + q)[..|p|] == p;
    assert OccursAt(s, p, i);
  }

  /** A name that does not contain `Nullable` escapes the three nullable rules. */
  lemma NotNullable(name: string)
    requires !Contains(name, "Nullable")
    ensures !Contains(name, "NullableDate") && !Contains(name, "NullableInt64Slice")
    ensures !Contains(name, "NullableIntSlice") && !Contains(name, "NullableTaskPriority")
  {
    if Contains(name, "NullableDate") { assert "NullableDate" == "Nullable" + "Date"; ContainsFront(name, "Nullable", "Date"); }
    if Contains(name, "NullableInt64Slice") {
      assert "NullableInt64Slice" == "Nullable" + "Int64Slice";
      ContainsFront(name, "Nullable", "Int64Slice");
    }
    if Contains(name, "NullableIntSlice") {
      assert "NullableIntSlice" == "Nullable" + "IntSlice";
      ContainsFront(name, "Nullable", "IntSlice");
    }
    if Contains(name, "NullableTaskPriority") {
      assert "NullableTaskPriority" == "Nullable" + "TaskPriority";
      ContainsFront(name, "Nullable", "TaskPriority");
    }
  }

  /**
   * For a missing model the numeric rule comes before the array rule: a
   * name with `Int` and neither `Date` nor `Time` is a number or an integer,
   * even when it also says `Slice`.
   */
  lemma NumericBeforeArray(doc: Json, name: string)
    requires FindModel(doc, name).None? && !Contains(name, "Nullable")
    requires !Contains(name, "Date") && !Contains(name, "Time") && Contains(name, "Int")
    ensures Lookup(ProcessUnmarshalerType(doc, name).fields, "type") == Some(Str(if Contains(name, "Float") then "number" else "integer"))
  {
    NotNullable(name);
  }

  /** `p` cannot occur in a text that lacks its first character. */
  lemma AbsentFirst(s: string, p: string)
    requires p != [] && p[0] !in s
    ensures !Contains(s, p)
  {
  }

  /** A missing `Int64Slice` model is inferred as an integer, not as an array. */
  lemma Int64SliceIsInteger(doc: Json)
    requires FindModel(doc, "Int64Slice").None?
    ensures Lookup(ProcessUnmarshalerType(doc, "Int64Slice").fields, "type") == Some(Str("integer"))
  {
    var n := "Int64Slice";
    AbsentFirst(n, "Nullable");
    AbsentFirst(n, "Date");
    AbsentFirst(n, "Time");
    AbsentFirst(n, "Float");
    assert OccursAt(n, "Int", 0);
    NumericBeforeArray(doc, n);
  }

  /**
   * A found model with a truthy `value` property takes the value's type,
   * and its description is the model's followed by the value's in parentheses.
   */
  lemma ValueDescription(doc: Json, name: string, model: Json, vp: Json, md: Json, vd: Json)
    requires FindModel(doc, name) == Some(model) && !Contains(name, "Nullable")
    requires Get(model, "type") == Some(Str("object")) && TruthyOpt(Get(model, "properties"))
    requires Get(Get(model, "properties").value, "value") == Some(vp) && Truthy(vp)
    requires Get(model, "description") == Some(md) && Truthy(md)
    requires Get(vp, "description") == Some(vd) && Truthy(vd)
    ensures Lookup(ProcessUnmarshalerType(doc, name).fields, "description") == Some(Str(ToText(md) + " (" + ToText(vd) + ")"))
    ensures Lookup(ProcessUnmarshalerType(doc, name).fields, "type") == Some(Str(MapType(Some(Or(Get(vp, "type"), Str("string"))))))
  {
    NotNullable(name);
    var typed := [Field("type", Str(MapType(Some(Or(Get(vp, "type"), Str("string"))))))];
    var described := typed + TruthyField("description", Get(model, "description")) + TruthyField("format", Get(vp, "format"));
    var joined := Str(ToText(md) + " (" + OptText(Some(vd)) + ")");
    assert ProcessUnmarshalerType(doc, name) == Unwrapped(model, name) == JObj(Put(described, "description", joined));
    PutOther(described, "description", joined, "type");
  }

  /**
   * The three nullable rules fire before the existence check, for every
   * document: each takes the model's description when it is truthy and a
   * fixed text otherwise.
   */
  lemma NullableDescriptions(doc: Json, name: string)
    ensures var r := ProcessUnmarshalerType(doc, name);
      var md := GetOpt(FindModel(doc, name), "description");
      (Contains(name, "NullableDate") ==>
        r.fields[2] == Field("description", Or(md, Str("A nullable date value (format: YYYY-MM-DD)"))))
      && (!Contains(name, "NullableDate") && NullableIntSlice(name) ==>
        r.fields[2] == Field("description", Or(md, Str("A nullable array of integers"))))
      && (!Contains(name, "NullableDate") && !NullableIntSlice(name) && Contains(name, "NullableTaskPriority") ==>
        r.fields[2] == Field("description", Or(md, Str("A nullable task priority value"))))
  {
  }

  /** Where every model's own `type` is a JSON Schema kind, so is the type of every mapped node. */
  lemma KindsWhenModelsTyped(doc: Json, s: Json)
    requires forall name :: FindModel(doc, name).Some? && Get(FindModel(doc, name).value, "type").Some? ==>
      Get(FindModel(doc, name).value, "type").value.JStr? && Get(FindModel(doc, name).value, "type").value.s in Kinds
    ensures KindNode(MapSchema(doc, s))
  {
  }

  /** `{definitions: {Timestamp: {type: t}}}`: a date-like model with the `type` `t`. */
  function TimestampDoc(t: Json): Json
  {
    JObj([Field("definitions", JObj([Field("Timestamp", JObj([Field("type", t)]))]))])
  }

  /**
   * A reference to that model keeps its `type` unmapped, since the wrapper
   * fallback copies the model's own type; with `type: 'file'` the mapped
   * node's type is no JSON Schema kind.
   */
  lemma ModelTypeLeaks(t: Json)
    requires Truthy(t)
    ensures MapSchema(TimestampDoc(t), JObj([Field("$ref", Str("#/definitions/Timestamp"))])).fields[0] == Field("type", t)
    ensures t == Str("file") ==> !KindNode(MapSchema(TimestampDoc(t), JObj([Field("$ref", Str("#/definitions/Timestamp"))])))
  {
    TimestampRef();
    TimestampWrapper(t);
    TimestampNode(t);
    WrapperNodeMapped(TimestampDoc(t), "#/definitions/Timestamp");
    var m := MapSchema(TimestampDoc(t), JObj([Field("$ref", Str("#/definitions/Timestamp"))]));
    assert m.fields[0].value == t;
    FileNoKind();
  }

  lemma FileNoKind()
    ensures "file" !in Kinds
  {
  }

  /** A reference to a wrapper model maps to the wrapper node. */
  lemma WrapperNodeMapped(doc: Json, ref: string)
    requires ref != "" && IsLikelyUnmarshaler(doc, RefName(ref))
    ensures MapSchema(doc, JObj([Field("$ref", Str(ref))])) == ProcessUnmarshalerType(doc, RefName(ref))
  {
    var s := JObj([Field("$ref", Str(ref))]);
    assert RefOf(s) == Some(ref);
    WalkOfRef(doc, s, ref, {});
  }

  lemma TimestampRef()
    ensures RefName("#/definitions/Timestamp") == "Timestamp"
  {
    assert "#/definitions/Timestamp" == "#/definitions" + "/" + "Timestamp";
    LastSegmentAfter("#/definitions", "Timestamp");
  }

  lemma FindTimestamp(t: Json)
    requires Truthy(t)
    ensures FindModel(TimestampDoc(t), "Timestamp") == Some(JObj([Field("type", t)]))
  {
    assert Get(TimestampDoc(t), "definitions") == Some(JObj([Field("Timestamp", JObj([Field("type", t)]))]));
  }

  lemma TimestampWrapper(t: Json)
    requires Truthy(t)
    ensures IsLikelyUnmarshaler(TimestampDoc(t), "Timestamp")
  {
    FindTimestamp(t);
    assert OccursAt("Timestamp", "Timestamp", 0);
    assert DateTimeNames[4] == "Timestamp";
  }

  lemma TimestampNode(t: Json)
    requires Truthy(t)
    ensures ProcessUnmarshalerType(TimestampDoc(t), "Timestamp").fields[0] == Field("type", t)
  {
    var n := "Timestamp";
    FindTimestamp(t);
    AbsentFirst(n, "Nullable");
    NotNullable(n);
    assert !ValueWrapper(JObj([Field("type", t)]));
  }

  // ---------------------------------------------------------------- the source as written

  /** `processSchema` as written, with `fuel` bounding the nesting of its calls. */
  function ProcessSchemaAsWritten(doc: Json, s: Json, fuel: nat): Option<Json>
    decreases fuel, 1
  {
    if fuel == 0 then None
    else if !Truthy(s) then Some(TypeNode("object"))
    else match RefOf(s)
      case Some(ref) => RefAsWritten(doc, RefName(ref), fuel - 1)
      case None =>
        var items := Get(s, "items");
        var props := Get(s, "properties");
        if Get(s, "type") == Some(Str("array")) && TruthyOpt(items) then
          match ProcessSchemaAsWritten(doc, items.value, fuel - 1)
          case None => None
          case Some(n) => Some(ArrayNode(s, n))
        else if Get(s, "type") == Some(Str("object")) || TruthyOpt(props) then
          var p := if TruthyOpt(props) then PropsAsWritten(doc, Entries(props.value), fuel - 1) else Some([]);
          match p
          case None => None
          case Some(fs) => Some(ObjectNode(s, fs))
        else Some(Primitive(s))
  }

  /** The `$ref` branch as written, with the fuel left after the call that reached it. */
  function RefAsWritten(doc: Json, name: string, fuel: nat): Option<Json>
    decreases fuel, 3
  {
    if IsLikelyUnmarshaler(doc, name) then Some(ProcessUnmarshalerType(doc, name))
    else ExtractModelAsWritten(doc, name, fuel)
  }

  /** `extractModelSchema` as written. */
  function ExtractModelAsWritten(doc: Json, name: string, fuel: nat): Option<Json>
    decreases fuel, 2
  {
    match FindModel(doc, name)
    case None => Some(NotFound(name))
    case Some(model) => ProcessSchemaAsWritten(doc, model, fuel)
  }

  function PropsAsWritten(doc: Json, entries: seq<Field>, fuel: nat): Option<seq<Field>>
    decreases fuel, 2, |entries|
  {
    if entries == [] then Some([])
    else
      var e := entries[|entries| - 1];
      match PropsAsWritten(doc, entries[..|entries| - 1], fuel)
      case None => None
      case Some(fs) =>
        match ProcessSchemaAsWritten(doc, e.value, fuel)
        case None => None
        case Some(n) => Some(Put(fs, e.key, n))
  }

  // ---------------------------------------------------------------- agreement

  /**
   * Wherever the cycle guard never fires, the corrected walk produces what
   * the source produces, given as much fuel as the source's calls nest.
   */
  lemma {:induction false} WalkAgrees(doc: Json, s: Json, visiting: set<string>, fuel: nat)
    requires !Walk(doc, s, visiting).cut && fuel >= Walk(doc, s, visiting).depth
    ensures ProcessSchemaAsWritten(doc, s, fuel) == Some(Walk(doc, s, visiting).node)
    decreases fuel, 2
  {
    if !Truthy(s) {
      FlatAgrees(doc, s, visiting, fuel);
    } else if RefOf(s).Some? {
      RefAgrees(doc, s, visiting, fuel);
    } else {
      PlainAgrees(doc, s, visiting, fuel);
    }
  }

  /** A `$ref` node agrees once the reference itself does. */
  lemma {:induction false} RefAgrees(doc: Json, s: Json, visiting: set<string>, fuel: nat)
    requires Truthy(s) && RefOf(s).Some?
    requires !Walk(doc, s, visiting).cut && fuel >= Walk(doc, s, visiting).depth
    ensures ProcessSchemaAsWritten(doc, s, fuel) == Some(Walk(doc, s, visiting).node)
    decreases fuel, 1, 1
  {
    var name := RefName(RefOf(s).value);
    RefBranch(doc, s, visiting, fuel);
    WalkRefAgrees(doc, name, visiting, fuel - 1);
  }

  /** A schema without `$ref`: arrays, objects and primitives agree. */
  lemma {:induction false} PlainAgrees(doc: Json, s: Json, visiting: set<string>, fuel: nat)
    requires Truthy(s) && RefOf(s).None?
    requires !Walk(doc, s, visiting).cut && fuel >= Walk(doc, s, visiting).depth
    ensures ProcessSchemaAsWritten(doc, s, fuel) == Some(Walk(doc, s, visiting).node)
    decreases fuel, 1, 0
  {
    if Get(s, "type") == Some(Str("array")) && TruthyOpt(Get(s, "items")) {
      ArrayAgrees(doc, s, visiting, fuel);
    } else if TruthyOpt(Get(s, "properties")) {
      ObjectAgrees(doc, s, visiting, fuel);
    } else {
      FlatAgrees(doc, s, visiting, fuel);
    }
  }

  /** A `$ref` node is handled by the reference branch, in both walks. */
  lemma RefBranch(doc: Json, s: Json, visiting: set<string>, fuel: nat)
    requires Truthy(s) && RefOf(s).Some? && fuel >= 1
    ensures Walk(doc, s, visiting) == WalkRef(doc, RefName(RefOf(s).value), visiting)
    ensures ProcessSchemaAsWritten(doc, s, fuel) == RefAsWritten(doc, RefName(RefOf(s).value), fuel - 1)
  {
  }

  /** Nodes that do not recurse: null, and objects without properties or primitives. */
  lemma FlatAgrees(doc: Json, s: Json, visiting: set<string>, fuel: nat)
    requires !Truthy(s) || (RefOf(s).None? && !(Get(s, "type") == Some(Str("array")) && TruthyOpt(Get(s, "items")))
      && !TruthyOpt(Get(s, "properties")))
    requires fuel >= 1
    ensures ProcessSchemaAsWritten(doc, s, fuel) == Some(Walk(doc, s, visiting).node)
  {
  }

  lemma {:induction false} WalkRefAgrees(doc: Json, name: string, visiting: set<string>, fuel: nat)
    requires !WalkRef(doc, name, visiting).cut && fuel + 1 >= WalkRef(doc, name, visiting).depth
    ensures RefAsWritten(doc, name, fuel) == Some(WalkRef(doc, name, visiting).node)
    decreases fuel, 4
  {
    if !IsLikelyUnmarshaler(doc, name) {
      WalkModelAgrees(doc, name, visiting, fuel);
    }
  }

  lemma {:induction false} ArrayAgrees(doc: Json, s: Json, visiting: set<string>, fuel: nat)
    requires Truthy(s) && RefOf(s).None?
    requires Get(s, "type") == Some(Str("array")) && TruthyOpt(Get(s, "items"))
    requires !Walk(doc, s, visiting).cut && fuel >= Walk(doc, s, visiting).depth
    ensures ProcessSchemaAsWritten(doc, s, fuel) == Some(Walk(doc, s, visiting).node)
    decreases fuel, 0
  {
    WalkAgrees(doc, Get(s, "items").value, visiting, fuel - 1);
  }

  lemma {:induction false} ObjectAgrees(doc: Json, s: Json, visiting: set<string>, fuel: nat)
    requires Truthy(s) && RefOf(s).None? && TruthyOpt(Get(s, "properties"))
    requires !(Get(s, "type") == Some(Str("array")) && TruthyOpt(Get(s, "items")))
    requires !Walk(doc, s, visiting).cut && fuel >= Walk(doc, s, visiting).depth
    ensures ProcessSchemaAsWritten(doc, s, fuel) == Some(Walk(doc, s, visiting).node)
    decreases fuel, 0
  {
    WalkPropsAgrees(doc, Entries(Get(s, "properties").value), visiting, s, fuel - 1);
  }

  lemma {:induction false} WalkModelAgrees(doc: Json, name: string, visiting: set<string>, fuel: nat)
    requires !WalkModel(doc, name, visiting).cut && fuel >= WalkModel(doc, name, visiting).depth
    ensures ExtractModelAsWritten(doc, name, fuel) == Some(WalkModel(doc, name, visiting).node)
    decreases fuel, 3
  {
    match FindModel(doc, name)
    case None =>
    case Some(model) =>
      BudgetShrinks(doc, visiting, name);
      WalkAgrees(doc, model, visiting + {name}, fuel);
  }

  lemma {:induction false} WalkPropsAgrees(doc: Json, entries: seq<Field>, visiting: set<string>, parent: Json, fuel: nat)
    requires forall i :: 0 <= i < |entries| ==> entries[i].value < parent || entries[i].value.JStr?
    requires !WalkProps(doc, entries, visiting, parent).cut && fuel >= WalkProps(doc, entries, visiting, parent).depth
    ensures PropsAsWritten(doc, entries, fuel) == Some(WalkProps(doc, entries, visiting, parent).node.fields)
    decreases fuel, 5, |entries|
  {
    if entries != [] {
      var e := entries[|entries| - 1];
      WalkPropsAgrees(doc, entries[..|entries| - 1], visiting, parent, fuel);
      if e.value.JStr? {
        LeafAgrees(doc, e.value, fuel);
      } else {
        WalkAgrees(doc, e.value, visiting, fuel);
      }
    }
  }

  /** A string entry is processed without recursion, to a leaf. */
  lemma LeafAgrees(doc: Json, v: Json, fuel: nat)
    requires v.JStr? && fuel >= 1
    ensures ProcessSchemaAsWritten(doc, v, fuel) == Some(Leaf(v))
  {
  }

  // ---------------------------------------------------------------- the cycle in the source

  /** A schema that is a `$ref` to the very model it is: `{$ref: '.../name'}` stored under `name`. */
  predicate SelfReferential(doc: Json, name: string, model: Json)
  {
    FindModel(doc, name) == Some(model) && RefOf(model).Some? && RefName(RefOf(model).value) == name
      && !IsLikelyUnmarshaler(doc, name)
  }

  /** The source never returns on a self-referential model, whatever the fuel. */
  lemma {:induction false} SelfReferenceDiverges(doc: Json, name: string, model: Json, fuel: nat)
    requires SelfReferential(doc, name, model)
    ensures ProcessSchemaAsWritten(doc, model, fuel).None?
    ensures ExtractModelAsWritten(doc, name, fuel).None?
  {
    if fuel > 0 {
      RefBranch(doc, model, {}, fuel);
      SelfReferenceDiverges(doc, name, model, fuel - 1);
    }
  }

  /** The corrected walk expands the model once and cuts the cycle at the second visit. */
  lemma SelfReferenceCut(doc: Json, name: string, model: Json)
    requires SelfReferential(doc, name, model)
    ensures ExtractModel(doc, name) == Recursive(name)
    ensures MapSchema(doc, model) == Recursive(name)
  {
    var none: set<string> := {};
    assert none + {name} == {name};
    assert WalkModel(doc, name, none) == Walk(doc, model, {name});
    RefBranch(doc, model, {name}, 1);
    assert WalkRef(doc, name, {name}).node == WalkModel(doc, name, {name}).node;
    assert WalkModel(doc, name, {name}).node == Recursive(name);
    RefBranch(doc, model, none, 1);
  }

  /** The smallest such document: `{definitions: {Node: {$ref: '#/definitions/Node'}}}`. */
  function NodeModel(): Json
  {
    JObj([Field("$ref", Str("#/definitions/Node"))])
  }

  function LoopDoc(): Json
  {
    JObj([Field("definitions", JObj([Field("Node", NodeModel())]))])
  }

  lemma LoopDocSelfReferential()
    ensures SelfReferential(LoopDoc(), "Node", NodeModel())
  {
    FindNode();
    NodeRefOf();
    NodeRef();
    NodeNotWrapper();
  }

  lemma FindNode()
    ensures FindModel(LoopDoc(), "Node") == Some(NodeModel())
  {
    assert Get(LoopDoc(), "definitions") == Some(JObj([Field("Node", NodeModel())]));
  }

  lemma NodeRefOf()
    ensures RefOf(NodeModel()) == Some("#/definitions/Node")
  {
  }

  lemma NodeRef()
    ensures RefName("#/definitions/Node") == "Node"
  {
    assert "#/definitions/Node" == "#/definitions" + "/" + "Node";
    LastSegmentAfter("#/definitions", "Node");
  }

  lemma NodeNotWrapper()
    ensures !AnyIn("Node", DateTimeNames)
    ensures !IsLikelyUnmarshaler(LoopDoc(), "Node")
  {
    assert !OccursAt("Node", "Date", 0) by { assert "Node"[0] != "Date"[0]; }
    assert !OccursAt("Node", "Time", 0) by { assert "Node"[0] != "Time"[0]; }
    NotContainsLonger("Node", "DateTime");
    NotContainsLonger("Node", "Duration");
    NotContainsLonger("Node", "Timestamp");
    FindNode();
  }

  /** On that document the source recurses without end, and the corrected walk does not. */
  lemma LoopDocDiverges(fuel: nat)
    ensures ExtractModelAsWritten(LoopDoc(), "Node", fuel).None?
    ensures ExtractModel(LoopDoc(), "Node") == Recursive("Node")
  {
    LoopDocSelfReferential();
    SelfReferenceDiverges(LoopDoc(), "Node", NodeModel(), fuel);
    SelfReferenceCut(LoopDoc(), "Node", NodeModel());
  }
}
