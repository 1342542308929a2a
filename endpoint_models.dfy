/**
 * The models an endpoint uses (src/services/listEndpointModels.ts): a
 * depth-first walk from the operation's schemas that follows every `$ref`
 * once, keyed by the reference text, and resolves each one in the document.
 */
module EndpointModels {
  import opened Text
  import opened Json
  import ModelCode

  /** One listed model: the last `/` segment of its reference and what the reference resolves to. */
  datatype Model = Model(name: string, schema: Json)

  // ---------------------------------------------------------------- references

  /**
   * `current[part]` while resolving: an object's property, an array's or a
   * string's element under its canonical decimal index, nothing otherwise.
   */
  function Prop(j: Json, part: string): (r: Option<Json>)
    ensures j.JObj? ==> r == Get(j, part)
    ensures r.Some? && !j.JStr? ==> r.value < j
    ensures r.Some? && j.JStr? ==> r.value.JStr? && |r.value.s| == 1
  {
    match j
    case JObj(fs) => Get(j, part)
    case JArr(xs) =>
      var i := IndexNamed(part, |xs|);
      if i.Some? then Some(xs[i.value]) else None
    case JStr(s) =>
      var i := IndexNamed(part, |s|);
      if i.Some? then Some(JStr([s[i.value]])) else None
    case _ => None
  }

  /** The index below `n` whose decimal text is `part`, if there is one. */
  function IndexNamed(part: string, n: nat): (r: Option<nat>)
    ensures r.Some? ==> r.value < n && NatToString(r.value) == part
    ensures r.None? ==> forall i :: 0 <= i < n ==> NatToString(i) != part
  {
    if n == 0 then None
    else if NatToString(n - 1) == part then Some(n - 1)
    else IndexNamed(part, n - 1)
  }

  /** The value reached from `cur` through `parts`; a missing or falsy step gives `null`. */
  function Follow(cur: Json, parts: seq<string>): Json
    decreases |parts|
  {
    if parts == [] then cur
    else
      var next := Prop(cur, parts[0]);
      if !TruthyOpt(next) then JNull else Follow(next.value, parts[1..])
  }

  /** `resolveReference`: the pieces of `ref.split('/')` after the first, followed from the document. */
  function Resolve(ref: string, doc: Json): Json
  {
    Follow(doc, Split(ref, '/')[1..])
  }

  /** The model pushed for `ref`. */
  function ModelFor(doc: Json, ref: string): Model
  {
    Model(LastSegment(ref), Resolve(ref, doc))
  }

  /** The models pushed for `refs`, in order. */
  function ModelsOf(doc: Json, refs: seq<string>): (r: seq<Model>)
    ensures |r| == |refs| && forall i :: 0 <= i < |refs| ==> r[i] == ModelFor(doc, refs[i])
  {
    seq(|refs|, i requires 0 <= i < |refs| => ModelFor(doc, refs[i]))
  }

  // ---------------------------------------------------------------- the walk

  /** The texts of the string-valued `$ref` properties anywhere in `j`. */
  function RefsIn(j: Json): set<string>
    decreases j, 1
  {
    match j
    case JObj(fs) => FieldRefs(j, fs)
    case JArr(xs) => ItemRefs(j, xs)
    case _ => {}
  }

  function FieldRefs(ghost j: Json, fs: seq<Field>): set<string>
    requires forall i :: 0 <= i < |fs| ==> fs[i].value < j
    decreases j, 0, |fs|
  {
    if fs == [] then {}
    else
      var f := fs[|fs| - 1];
      FieldRefs(j, fs[..|fs| - 1]) + RefsIn(f.value) + (if f.key == "$ref" && f.value.JStr? then {f.value.s} else {})
  }

  function ItemRefs(ghost j: Json, xs: seq<Json>): set<string>
    requires forall i :: 0 <= i < |xs| ==> xs[i] < j
    decreases j, 0, |xs|
  {
    if xs == [] then {} else ItemRefs(j, xs[..|xs| - 1]) + RefsIn(xs[|xs| - 1])
  }

  /** The references of a `Set` in insertion order hold no repeats. */
  predicate Distinct(refs: seq<string>)
    decreases |refs|
  {
    refs == [] || (refs[|refs| - 1] !in refs[..|refs| - 1] && Distinct(refs[..|refs| - 1]))
  }

  lemma DistinctAppend(refs: seq<string>, x: string)
    ensures Distinct(refs + [x]) <==> Distinct(refs) && x !in refs
  {
    assert (refs + [x])[..|refs|] == refs;
  }

  /** `Distinct` says that no two positions hold the same reference. */
  lemma {:induction false} DistinctMeans(refs: seq<string>)
    ensures Distinct(refs) <==> forall i, k :: 0 <= i < k < |refs| ==> refs[i] != refs[k]
    decreases |refs|
  {
    if refs != [] {
      var n := |refs| - 1;
      var init := refs[..n];
      DistinctMeans(init);
      assert refs == init + [refs[n]];
      if Distinct(refs) {
        forall i, k | 0 <= i < k < |refs|
          ensures refs[i] != refs[k]
        {
          if k == n {
            assert refs[i] == init[i];
          } else {
            assert refs[i] == init[i] && refs[k] == init[k];
          }
        }
      }
      if forall i, k :: 0 <= i < k < |refs| ==> refs[i] != refs[k] {
        forall i, k | 0 <= i < k < |init|
          ensures init[i] != init[k]
        {
          assert init[i] == refs[i] && init[k] == refs[k];
        }
      }
    }
  }

  function Elems(refs: seq<string>): set<string>
  {
    set x | x in refs
  }

  /**
   * The references the walk may still follow from `schema`: those of the
   * document and of `schema` that have not been seen.  The set never grows
   * and each followed reference leaves it.
   */
  function Unseen(doc: Json, schema: Json, refs: seq<string>): set<string>
  {
    (RefsIn(doc) + RefsIn(schema)) - Elems(refs)
  }

  /**
   * `extractReferencedModels(schema, ...)` with the visited references
   * `refs`, in the order they were added: the references it ends with, or
   * the error it throws.
   */
  function Visit(doc: Json, schema: Json, refs: seq<string>): (r: Result<seq<string>>)
    ensures r.Ok? ==> refs <= r.value
    ensures r.Ok? && Distinct(refs) ==> Distinct(r.value)
    decreases Unseen(doc, schema, refs), schema, 3, 0
  {
    if !Truthy(schema) then Ok(refs)
    else
      var ref := Get(schema, "$ref");
      if TruthyOpt(ref) then RefNode(doc, schema, ref.value, refs)
      else Children(doc, schema, refs)
  }

  /** A node whose `$ref` is the truthy `ref`: a seen reference ends the visit of the node. */
  function RefNode(doc: Json, schema: Json, ref: Json, refs: seq<string>): (r: Result<seq<string>>)
    requires Get(schema, "$ref") == Some(ref)
    ensures r.Ok? ==> refs <= r.value
    ensures r.Ok? && Distinct(refs) ==> Distinct(r.value)
    decreases Unseen(doc, schema, refs), schema, 2, 0
  {
    if !ref.JStr? then Err(ModelCode.RefSplitError)
    else if ref.s in refs then Ok(refs)
    else
      var target := Resolve(ref.s, doc);
      var next := refs + [ref.s];
      UnseenShrinks(doc, schema, ref.s, refs);
      DistinctAppend(refs, ref.s);
      var first := if Truthy(target) then Visit(doc, target, next) else Ok(next);
      if first.Err? then first
      else
        UnseenSame(doc, schema, refs, first.value);
        Children(doc, schema, first.value)
  }

  /** The rest of a node: array items, then each property, then the `allOf`, `anyOf` and `oneOf` members. */
  function Children(doc: Json, schema: Json, refs: seq<string>): (r: Result<seq<string>>)
    ensures r.Ok? ==> refs <= r.value
    ensures r.Ok? && Distinct(refs) ==> Distinct(r.value)
    decreases Unseen(doc, schema, refs), schema, 1, 6
  {
    Stages(doc, schema, 5, refs)
  }

  /** The composition keywords, in the order the node's members are visited. */
  const Compositions := ["allOf", "anyOf", "oneOf"]

  /** The first `n` of the five parts of `Children`, one after the other. */
  function Stages(doc: Json, schema: Json, n: nat, refs: seq<string>): (r: Result<seq<string>>)
    requires n <= 5
    ensures r.Ok? ==> refs <= r.value
    ensures r.Ok? && Distinct(refs) ==> Distinct(r.value)
    decreases Unseen(doc, schema, refs), schema, 1, n
  {
    if n == 0 then Ok(refs)
    else
      var prev := Stages(doc, schema, n - 1, refs);
      if prev.Err? then prev
      else
        UnseenSame(doc, schema, refs, prev.value);
        Stage(doc, schema, n - 1, prev.value)
  }

  /** Part `k` of `Children`: the array items, the properties, or one composition keyword. */
  function Stage(doc: Json, schema: Json, k: nat, refs: seq<string>): (r: Result<seq<string>>)
    requires k < 5
    ensures r.Ok? ==> refs <= r.value
    ensures r.Ok? && Distinct(refs) ==> Distinct(r.value)
    decreases Unseen(doc, schema, refs), schema, 0, 1
  {
    if k == 0 then
      var items := Get(schema, "items");
      if Get(schema, "type") == Some(Str("array")) && TruthyOpt(items) then
        GetRefs(schema, "items"); UnseenMono(doc, schema, items.value, refs, refs);
        Visit(doc, items.value, refs)
      else Ok(refs)
    else if k == 1 then
      var props := Get(schema, "properties");
      if TruthyOpt(props) then
        GetRefs(schema, "properties"); UnseenMono(doc, schema, props.value, refs, refs);
        VisitAll(doc, props.value, PropertyValues(props.value), refs)
      else Ok(refs)
    else Group(doc, schema, Compositions[k - 2], refs)
  }

  /** `if (Array.isArray(schema[key])) schema[key].forEach(...)`. */
  function Group(doc: Json, schema: Json, key: string, refs: seq<string>): (r: Result<seq<string>>)
    ensures r.Ok? ==> refs <= r.value
    ensures r.Ok? && Distinct(refs) ==> Distinct(r.value)
    decreases Unseen(doc, schema, refs), schema, 0, 0
  {
    var g := Get(schema, key);
    if g.Some? && g.value.JArr? then
      GetRefs(schema, key); UnseenMono(doc, schema, g.value, refs, refs); ItemsRefs(g.value);
      VisitAll(doc, g.value, g.value.items, refs)
    else Ok(refs)
  }

  /** Visits each of `xs`, the children of `parent`, in order. */
  function VisitAll(doc: Json, parent: Json, xs: seq<Json>, refs: seq<string>): (r: Result<seq<string>>)
    requires forall i :: 0 <= i < |xs| ==> xs[i] < parent && RefsIn(xs[i]) <= RefsIn(parent)
    ensures r.Ok? ==> refs <= r.value
    ensures r.Ok? && Distinct(refs) ==> Distinct(r.value)
    decreases Unseen(doc, parent, refs), parent, 0, |xs|
  {
    if xs == [] then Ok(refs)
    else
      var prev := VisitAll(doc, parent, xs[..|xs| - 1], refs);
      if prev.Err? then prev
      else
        UnseenMono(doc, parent, xs[|xs| - 1], refs, prev.value);
        Visit(doc, xs[|xs| - 1], prev.value)
  }

  /**
   * The values `for (const propName in schema.properties)` reads.  A
   * string's one-character elements are left out: visiting a string does
   * nothing (StringVisitIgnored).
   */
  function PropertyValues(p: Json): (r: seq<Json>)
    ensures forall i :: 0 <= i < |r| ==> r[i] < p && RefsIn(r[i]) <= RefsIn(p)
  {
    match p
    case JObj(fs) =>
      FieldsRefs(p);
      seq(|fs|, i requires 0 <= i < |fs| => fs[i].value)
    case JArr(xs) => ItemsRefs(p); xs
    case _ => []
  }

  // ---------------------------------------------------------------- measure lemmas

  lemma {:induction false} FieldRefsPrefix(j: Json, fs: seq<Field>, n: nat)
    requires forall i :: 0 <= i < |fs| ==> fs[i].value < j
    requires n <= |fs|
    ensures FieldRefs(j, fs[..n]) <= FieldRefs(j, fs)
    decreases |fs|
  {
    if n < |fs| {
      assert fs[..|fs| - 1][..n] == fs[..n];
      FieldRefsPrefix(j, fs[..|fs| - 1], n);
    } else {
      assert fs[..n] == fs;
    }
  }

  lemma {:induction false} ItemRefsPrefix(j: Json, xs: seq<Json>, n: nat)
    requires forall i :: 0 <= i < |xs| ==> xs[i] < j
    requires n <= |xs|
    ensures ItemRefs(j, xs[..n]) <= ItemRefs(j, xs)
    decreases |xs|
  {
    if n < |xs| {
      assert xs[..|xs| - 1][..n] == xs[..n];
      ItemRefsPrefix(j, xs[..|xs| - 1], n);
    } else {
      assert xs[..n] == xs;
    }
  }

  /** Each field's value, and a string `$ref` field's text, are among an object's references. */
  lemma FieldsRefs(j: Json)
    requires j.JObj?
    ensures forall i :: 0 <= i < |j.fields| ==> RefsIn(j.fields[i].value) <= RefsIn(j)
    ensures forall i :: 0 <= i < |j.fields| && j.fields[i].key == "$ref" && j.fields[i].value.JStr? ==>
      j.fields[i].value.s in RefsIn(j)
  {
    var fs := j.fields;
    forall i | 0 <= i < |fs|
      ensures RefsIn(fs[i].value) <= RefsIn(j)
      ensures fs[i].key == "$ref" && fs[i].value.JStr? ==> fs[i].value.s in RefsIn(j)
    {
      FieldRefsPrefix(j, fs, i + 1);
      assert fs[..i + 1][..i] == fs[..i];
    }
  }

  lemma ItemsRefs(j: Json)
    requires j.JArr?
    ensures forall i :: 0 <= i < |j.items| ==> RefsIn(j.items[i]) <= RefsIn(j)
  {
    var xs := j.items;
    forall i | 0 <= i < |xs|
      ensures RefsIn(xs[i]) <= RefsIn(j)
    {
      ItemRefsPrefix(j, xs, i + 1);
      assert xs[..i + 1][..i] == xs[..i];
    }
  }

  /** A property's value holds no reference its object does not. */
  lemma GetRefs(j: Json, key: string)
    ensures Get(j, key).Some? ==> RefsIn(Get(j, key).value) <= RefsIn(j)
    ensures key == "$ref" && Get(j, key).Some? && Get(j, key).value.JStr? ==> Get(j, key).value.s in RefsIn(j)
  {
    if Get(j, key).Some? {
      LookupFound(j.fields, key);
      FieldsRefs(j);
    }
  }

  lemma PropRefs(j: Json, part: string)
    ensures Prop(j, part).Some? ==> RefsIn(Prop(j, part).value) <= RefsIn(j)
  {
    match j
    case JObj(_) => GetRefs(j, part);
    case JArr(_) => ItemsRefs(j);
    case _ =>
  }

  lemma {:induction false} FollowRefs(cur: Json, parts: seq<string>)
    ensures RefsIn(Follow(cur, parts)) <= RefsIn(cur)
    decreases |parts|
  {
    if parts != [] {
      var next := Prop(cur, parts[0]);
      if TruthyOpt(next) {
        PropRefs(cur, parts[0]);
        FollowRefs(next.value, parts[1..]);
      }
    }
  }

  /** A resolved reference is part of the document. */
  lemma ResolveRefs(ref: string, doc: Json)
    ensures RefsIn(Resolve(ref, doc)) <= RefsIn(doc)
  {
    FollowRefs(doc, Split(ref, '/')[1..]);
  }

  lemma ElemsGrow(refs: seq<string>, more: seq<string>)
    requires refs <= more
    ensures Elems(refs) <= Elems(more)
  {
    forall x | x in refs
      ensures x in more
    {
      var i :| 0 <= i < |refs| && refs[i] == x;
      assert more[i] == x;
    }
  }

  lemma UnseenMono(doc: Json, parent: Json, child: Json, refs: seq<string>, more: seq<string>)
    requires RefsIn(child) <= RefsIn(parent) && refs <= more
    ensures Unseen(doc, child, more) <= Unseen(doc, parent, refs)
  {
    ElemsGrow(refs, more);
  }

  lemma UnseenSame(doc: Json, schema: Json, refs: seq<string>, more: seq<string>)
    requires refs <= more
    ensures Unseen(doc, schema, more) <= Unseen(doc, schema, refs)
  {
    UnseenMono(doc, schema, schema, refs, more);
  }

  /** Following a new reference lowers the count of references left. */
  lemma UnseenShrinks(doc: Json, schema: Json, ref: string, refs: seq<string>)
    requires Get(schema, "$ref") == Some(Str(ref)) && ref !in refs
    ensures Unseen(doc, Resolve(ref, doc), refs + [ref]) < Unseen(doc, schema, refs)
  {
    GetRefs(schema, "$ref");
    ResolveRefs(ref, doc);
    assert ref in Unseen(doc, schema, refs);
    ElemsAppend(refs, ref);
    assert ref !in Unseen(doc, Resolve(ref, doc), refs + [ref]);
  }

  lemma ElemsAppend(refs: seq<string>, ref: string)
    ensures Elems(refs + [ref]) == Elems(refs) + {ref}
  {
  }

  lemma ModelsOfAppend(doc: Json, refs: seq<string>, ref: string)
    ensures ModelsOf(doc, refs + [ref]) == ModelsOf(doc, refs) + [ModelFor(doc, ref)]
  {
  }

  // ---------------------------------------------------------------- the endpoint

  /**
   * `if (holder.schema) extractReferencedModels(holder.schema, ...)` for a
   * media-type object or a parameter; reading `schema` of `null` throws.
   */
  function SchemaRefs(doc: Json, holder: Json, refs: seq<string>): (r: Result<seq<string>>)
    ensures r.Ok? ==> refs <= r.value
    ensures r.Ok? && Distinct(refs) ==> Distinct(r.value)
  {
    if holder.JNull? then Err(NullRead("schema"))
    else
      var s := Get(holder, "schema");
      if TruthyOpt(s) then Visit(doc, s.value, refs) else Ok(refs)
  }

  /** `SchemaRefs` for each of `hs`, in order. */
  function HoldersRefs(doc: Json, hs: seq<Json>, refs: seq<string>): (r: Result<seq<string>>)
    ensures r.Ok? ==> refs <= r.value
    ensures r.Ok? && Distinct(refs) ==> Distinct(r.value)
  {
    if hs == [] then Ok(refs)
    else
      var prev := HoldersRefs(doc, hs[..|hs| - 1], refs);
      if prev.Err? then prev else SchemaRefs(doc, hs[|hs| - 1], prev.value)
  }

  /** The values a `for...in` loop over `j` reads. */
  function Values(j: Json): (r: seq<Json>)
    ensures |r| == |Entries(j)| && forall i :: 0 <= i < |r| ==> r[i] == Entries(j)[i].value
  {
    var es := Entries(j);
    seq(|es|, i requires 0 <= i < |es| => es[i].value)
  }

  /** The media-type objects of `holder.content || {}`. */
  function MediaTypes(holder: Json): seq<Json>
  {
    Values(Or(Get(holder, "content"), JObj([])))
  }

  /** The request-body phase: each media type of a truthy `requestBody`. */
  function BodyRefs(doc: Json, op: Json, refs: seq<string>): (r: Result<seq<string>>)
    ensures r.Ok? ==> refs <= r.value
    ensures r.Ok? && Distinct(refs) ==> Distinct(r.value)
  {
    var body := Get(op, "requestBody");
    if TruthyOpt(body) then HoldersRefs(doc, MediaTypes(body.value), refs) else Ok(refs)
  }

  const NotIterable := "operation.parameters is not iterable"

  /**
   * The parameter phase: `for...of` over a truthy `parameters`.  An array
   * gives its elements; a string gives its characters, none of which has a
   * `schema`; any other value cannot be iterated.
   */
  function ParameterRefs(doc: Json, op: Json, refs: seq<string>): (r: Result<seq<string>>)
    ensures r.Ok? ==> refs <= r.value
    ensures r.Ok? && Distinct(refs) ==> Distinct(r.value)
  {
    var ps := Get(op, "parameters");
    if !TruthyOpt(ps) then Ok(refs)
    else match ps.value
      case JArr(xs) => HoldersRefs(doc, xs, refs)
      case JStr(_) => Ok(refs)
      case _ => Err(NotIterable)
  }

  /** One response: each media type of `response.content || {}`; reading `content` of `null` throws. */
  function ResponseRefs(doc: Json, response: Json, refs: seq<string>): (r: Result<seq<string>>)
    ensures r.Ok? ==> refs <= r.value
    ensures r.Ok? && Distinct(refs) ==> Distinct(r.value)
  {
    if response.JNull? then Err(NullRead("content")) else HoldersRefs(doc, MediaTypes(response), refs)
  }

  /** `ResponseRefs` for each of `rs`, in order. */
  function ResponsesRefs(doc: Json, rs: seq<Json>, refs: seq<string>): (r: Result<seq<string>>)
    ensures r.Ok? ==> refs <= r.value
    ensures r.Ok? && Distinct(refs) ==> Distinct(r.value)
  {
    if rs == [] then Ok(refs)
    else
      var prev := ResponsesRefs(doc, rs[..|rs| - 1], refs);
      if prev.Err? then prev else ResponseRefs(doc, rs[|rs| - 1], prev.value)
  }

  /** The response phase: each response of a truthy `responses`. */
  function ResponsePhase(doc: Json, op: Json, refs: seq<string>): (r: Result<seq<string>>)
    ensures r.Ok? ==> refs <= r.value
    ensures r.Ok? && Distinct(refs) ==> Distinct(r.value)
  {
    var rs := Get(op, "responses");
    if TruthyOpt(rs) then ResponsesRefs(doc, Values(rs.value), refs) else Ok(refs)
  }

  /** The references an operation uses: request body, then parameters, then responses. */
  function OperationRefs(doc: Json, op: Json): (r: Result<seq<string>>)
    ensures r.Ok? ==> Distinct(r.value)
  {
    var body := BodyRefs(doc, op, []);
    if body.Err? then body
    else
      var params := ParameterRefs(doc, op, body.value);
      if params.Err? then params else ResponsePhase(doc, op, params.value)
  }

  function PathMissing(path: string): string
  {
    "Endpoint path '" + path + "' not found in Swagger definition"
  }

  function MethodMissing(verb: string, path: string): string
  {
    "Method '" + verb + "' not found for endpoint path '" + path + "'"
  }

  /** The operation stored under `path` and the lower-cased `verb`, or the error naming what is missing. */
  function OperationOf(doc: Json, path: string, verb: string): (r: Result<Json>)
    ensures doc.JNull? ==> r == Err(NullRead("paths"))
    ensures r.Ok? ==> Truthy(r.value)
    ensures !doc.JNull? && !TruthyOpt(Prop(Or(Get(doc, "paths"), JObj([])), path)) ==> r == Err(PathMissing(path))
    ensures var item := Prop(Or(Get(doc, "paths"), JObj([])), path);
      !doc.JNull? && TruthyOpt(item) ==>
        var op := Prop(item.value, Lower(verb));
        (r.Ok? <==> TruthyOpt(op)) && (r.Ok? ==> r.value == op.value) && (r.Err? ==> r == Err(MethodMissing(verb, path)))
  {
    if doc.JNull? then Err(NullRead("paths"))
    else
      var item := Prop(Or(Get(doc, "paths"), JObj([])), path);
      if !TruthyOpt(item) then Err(PathMissing(path))
      else
        var op := Prop(item.value, Lower(verb));
        if !TruthyOpt(op) then Err(MethodMissing(verb, path)) else Ok(op.value)
  }

  /** The models of one endpoint of the parsed document `doc`. */
  function ModelsIn(doc: Json, path: string, verb: string): (r: Result<seq<Model>>)
  {
    var op := OperationOf(doc, path, verb);
    if op.Err? then Err(op.msg)
    else
      var refs := OperationRefs(doc, op.value);
      if refs.Err? then Err(refs.msg) else Ok(ModelsOf(doc, refs.value))
  }

  const Failure := "Error listing endpoint models: "

  /** `listEndpointModels` on the file system `files`, from file paths to parsed documents. */
  function EndpointModelsFor(files: map<string, Json>, path: string, verb: string, file: string): (r: Result<seq<Model>>)
    ensures file == "" ==> r == Err(Failure + "Swagger file path is required")
    ensures file != "" && file !in files ==> r == Err(Failure + "Swagger file not found at " + file)
    ensures file != "" && file in files ==>
      (r.Ok? <==> ModelsIn(files[file], path, verb).Ok?) &&
      (r.Ok? ==> r == ModelsIn(files[file], path, verb)) &&
      (r.Err? ==> r.msg == Failure + ModelsIn(files[file], path, verb).msg)
  {
    if file == "" then Err(Failure + "Swagger file path is required")
    else if file !in files then Err(Failure + "Swagger file not found at " + file)
    else
      var m := ModelsIn(files[file], path, verb);
      if m.Err? then Err(Failure + m.msg) else m
  }

  // ---------------------------------------------------------------- properties

  /** A node with nothing below it to visit: no array items, no properties, no composition arrays. */
  predicate NoChildren(s: Json)
  {
    && !(Get(s, "type") == Some(Str("array")) && TruthyOpt(Get(s, "items")))
    && !TruthyOpt(Get(s, "properties"))
    && !(Get(s, "allOf").Some? && Get(s, "allOf").value.JArr?)
    && !(Get(s, "anyOf").Some? && Get(s, "anyOf").value.JArr?)
    && !(Get(s, "oneOf").Some? && Get(s, "oneOf").value.JArr?)
  }

  /** Such a node adds nothing beyond its own reference. */
  lemma ChildrenNone(doc: Json, s: Json, refs: seq<string>)
    requires NoChildren(s)
    ensures Children(doc, s, refs) == Ok(refs)
  {
    for n := 0 to 5
      invariant Stages(doc, s, n, refs) == Ok(refs)
    {
      StagesStep(doc, s, n, refs);
      StageNone(doc, s, n, refs);
    }
  }

  lemma StageNone(doc: Json, s: Json, k: nat, refs: seq<string>)
    requires NoChildren(s) && k < 5
    ensures Stage(doc, s, k, refs) == Ok(refs)
  {
    if k >= 2 {
      assert Compositions[0] == "allOf" && Compositions[1] == "anyOf" && Compositions[2] == "oneOf";
      GroupStage(doc, s, k - 2, refs);
    }
  }

  /** Visiting a string does nothing: it has none of the properties read. */
  lemma StringVisitIgnored(doc: Json, s: string, refs: seq<string>)
    ensures Visit(doc, JStr(s), refs) == Ok(refs)
  {
    ChildrenNone(doc, JStr(s), refs);
  }

  /** A node whose reference was already seen is skipped whole, its items, properties and members too. */
  lemma SeenRefStops(doc: Json, schema: Json, ref: string, refs: seq<string>)
    requires Get(schema, "$ref") == Some(Str(ref)) && ref != "" && ref in refs
    ensures Visit(doc, schema, refs) == Ok(refs)
  {
  }

  /** A new reference is the first one a node adds, with its last segment and resolved schema. */
  lemma NewRefFirst(doc: Json, schema: Json, ref: string, refs: seq<string>)
    requires Get(schema, "$ref") == Some(Str(ref)) && ref != "" && ref !in refs
    requires Visit(doc, schema, refs).Ok?
    ensures var r := Visit(doc, schema, refs).value;
      |r| > |refs| && r[|refs|] == ref &&
      ModelsOf(doc, r)[|refs|] == Model(LastSegment(ref), Resolve(ref, doc))
  {
    var next := refs + [ref];
    var target := Resolve(ref, doc);
    var first := if Truthy(target) then Visit(doc, target, next) else Ok(next);
    assert first.Ok?;
    var r := Visit(doc, schema, refs).value;
    assert next <= first.value <= r;
    assert r[|refs|] == next[|refs|];
  }

  /** A reference that does not resolve is still listed, once, with a `null` schema. */
  lemma UnresolvedListedOnce(doc: Json, schema: Json, ref: string, refs: seq<string>)
    requires Get(schema, "$ref") == Some(Str(ref)) && ref != "" && ref !in refs
    requires Resolve(ref, doc) == JNull && NoChildren(schema)
    ensures Visit(doc, schema, refs) == Ok(refs + [ref])
    ensures ModelsOf(doc, refs + [ref])[|refs|] == Model(LastSegment(ref), JNull)
  {
    ChildrenNone(doc, schema, refs + [ref]);
  }

  /** A model that refers to itself is listed once and the walk stops. */
  lemma SelfReferenceStops(doc: Json, node: Json, ref: string, refs: seq<string>)
    requires Get(node, "$ref") == Some(Str(ref)) && ref != "" && ref !in refs
    requires Resolve(ref, doc) == node && NoChildren(node)
    ensures Visit(doc, node, refs) == Ok(refs + [ref])
  {
    SeenRefStops(doc, node, ref, refs + [ref]);
    ChildrenNone(doc, node, refs + [ref]);
  }

  /** Two models that refer to each other are each listed once, in the order they are met. */
  lemma MutualReferenceStops(doc: Json, a: Json, b: Json, toA: string, toB: string, refs: seq<string>)
    requires Get(a, "$ref") == Some(Str(toB)) && Get(b, "$ref") == Some(Str(toA))
    requires toA != "" && toB != "" && toA != toB && toA !in refs && toB !in refs
    requires Resolve(toA, doc) == a && Resolve(toB, doc) == b && NoChildren(a) && NoChildren(b)
    ensures Visit(doc, a, refs) == Ok(refs + [toB, toA])
  {
    var both := refs + [toB] + [toA];
    assert both == refs + [toB, toA];
    SeenRefStops(doc, a, toB, both);
    ChildrenNone(doc, b, both);
    VisitRef(doc, b, refs + [toB]);
    RefNodeNew(doc, b, toA, refs + [toB]);
    assert Visit(doc, b, refs + [toB]) == Ok(both);
    ChildrenNone(doc, a, both);
    VisitRef(doc, a, refs);
    RefNodeNew(doc, a, toB, refs);
  }

  /** A node's own string reference is among the references after its visit. */
  lemma OwnRefCollected(doc: Json, schema: Json, ref: string, refs: seq<string>)
    requires Get(schema, "$ref") == Some(Str(ref)) && ref != ""
    requires Visit(doc, schema, refs).Ok?
    ensures ref in Visit(doc, schema, refs).value
  {
    if ref !in refs {
      NewRefFirst(doc, schema, ref, refs);
    } else {
      var i :| 0 <= i < |refs| && refs[i] == ref;
      assert Visit(doc, schema, refs).value[i] == ref;
    }
  }

  /** A reference without `/` (`#` alone, say) resolves to the whole document. */
  lemma ResolveWholeDocument(ref: string, doc: Json)
    requires '/' !in ref
    ensures Resolve(ref, doc) == doc
  {
  }

  /**
   * A reference `head/k1/.../kn` follows the keys `k1`...`kn` literally: the
   * escapes `~0` and `~1` of section 4 of RFC 6901 are not decoded.
   */
  lemma ResolvePath(head: string, keys: seq<string>, doc: Json)
    requires '/' !in head && forall k :: 0 <= k < |keys| ==> '/' !in keys[k]
    ensures Resolve(Join([head] + keys, "/"), doc) == Follow(doc, keys)
  {
    var xs := [head] + keys;
    forall k | 0 <= k < |xs|
      ensures '/' !in xs[k]
    {
      if k > 0 {
        assert xs[k] == keys[k - 1];
      }
    }
    SplitJoin(xs, '/');
    assert xs[1..] == keys;
  }

  /**
   * `root/section/name` (`#/definitions/Pet`, `#/components/schemas/Pet`
   * after one more step) resolves to the truthy value stored under
   * `section`, then `name`.
   */
  lemma ResolveTwoSteps(doc: Json, root: string, section: string, name: string, model: Json)
    requires '/' !in root && '/' !in section && '/' !in name
    requires TruthyOpt(Prop(doc, section))
    requires Prop(Prop(doc, section).value, name) == Some(model) && Truthy(model)
    ensures Resolve(root + "/" + section + "/" + name, doc) == model
  {
    var keys := [section, name];
    ResolvePath(root, keys, doc);
    assert [root] + keys == [root, section, name];
    assert Join([section, name], "/") == section + "/" + name by {
      assert [section, name][1..] == [name];
    }
    assert Join([root, section, name], "/") == root + "/" + (section + "/" + name) by {
      assert [root, section, name][1..] == [section, name];
    }
    assert root + "/" + (section + "/" + name) == root + "/" + section + "/" + name;
    var d := Prop(doc, section).value;
    assert keys[1..] == [name] && [name][1..] == [];
    assert Follow(d, [name]) == Follow(model, []);
    assert Follow(doc, keys) == Follow(d, [name]);
  }

  /** A prefix's elements are elements of the whole. */
  lemma PrefixIn(x: string, a: seq<string>, b: seq<string>)
    requires x in a && a <= b
    ensures x in b
  {
    var i :| 0 <= i < |a| && a[i] == x;
    assert b[i] == x;
  }

  lemma {:induction false} StagesPrefix(doc: Json, schema: Json, n: nat, refs: seq<string>)
    requires n <= 5 && Children(doc, schema, refs).Ok?
    ensures Stages(doc, schema, n, refs).Ok?
    ensures Stages(doc, schema, n, refs).value <= Children(doc, schema, refs).value
    decreases 5 - n
  {
    if n < 5 {
      StagesPrefix(doc, schema, n + 1, refs);
      StagesStep(doc, schema, n, refs);
    }
  }

  /** A member of `xs` with a string reference has it collected by `VisitAll`. */
  lemma {:induction false} VisitAllCollects(doc: Json, parent: Json, xs: seq<Json>, i: nat, x: string, refs: seq<string>)
    requires forall k :: 0 <= k < |xs| ==> xs[k] < parent && RefsIn(xs[k]) <= RefsIn(parent)
    requires i < |xs| && Get(xs[i], "$ref") == Some(Str(x)) && x != ""
    requires VisitAll(doc, parent, xs, refs).Ok?
    ensures x in VisitAll(doc, parent, xs, refs).value
    decreases |xs|
  {
    var n := |xs| - 1;
    var prev := VisitAll(doc, parent, xs[..n], refs);
    if i == n {
      OwnRefCollected(doc, xs[n], x, prev.value);
    } else {
      VisitAllCollects(doc, parent, xs[..n], i, x, refs);
      PrefixIn(x, prev.value, VisitAll(doc, parent, xs, refs).value);
    }
  }

  /** Whether a node's own reference lets its visit go on to the rest of the node. */
  predicate GoesOn(schema: Json, refs: seq<string>)
  {
    var ref := Get(schema, "$ref");
    ref.None? || (ref.value.JStr? && ref.value.s !in refs)
  }

  /** Under `GoesOn`, what `Children` collects the visit collects. */
  lemma ChildrenInVisit(doc: Json, schema: Json, x: string, refs: seq<string>)
    requires Truthy(schema) && GoesOn(schema, refs) && Visit(doc, schema, refs).Ok?
    requires forall more :: refs <= more && Children(doc, schema, more).Ok? ==> x in Children(doc, schema, more).value
    ensures x in Visit(doc, schema, refs).value
  {
    var ref := Get(schema, "$ref");
    if TruthyOpt(ref) {
      VisitRef(doc, schema, refs);
      RefNodeNew(doc, schema, ref.value.s, refs);
      var target := Resolve(ref.value.s, doc);
      var next := refs + [ref.value.s];
      var first := if Truthy(target) then Visit(doc, target, next) else Ok(next);
      assert refs <= first.value;
    } else {
      VisitPlain(doc, schema, refs);
      assert refs <= refs;
    }
  }

  /** After its own reference, an array node's `items` are still visited. */
  lemma ItemsFollowed(doc: Json, schema: Json, items: Json, x: string, refs: seq<string>)
    requires Get(schema, "type") == Some(Str("array")) && Get(schema, "items") == Some(items)
    requires Get(items, "$ref") == Some(Str(x)) && x != ""
    requires GoesOn(schema, refs) && Visit(doc, schema, refs).Ok?
    ensures x in Visit(doc, schema, refs).value
  {
    forall more | refs <= more && Children(doc, schema, more).Ok?
      ensures x in Children(doc, schema, more).value
    {
      StagesPrefix(doc, schema, 1, more);
      StagesStep(doc, schema, 0, more);
      OwnRefCollected(doc, items, x, more);
    }
    ChildrenInVisit(doc, schema, x, refs);
  }

  /** After its own reference, each property of a node is still visited. */
  lemma PropertyFollowed(doc: Json, schema: Json, fs: seq<Field>, i: nat, x: string, refs: seq<string>)
    requires Get(schema, "properties") == Some(JObj(fs)) && i < |fs|
    requires Get(fs[i].value, "$ref") == Some(Str(x)) && x != ""
    requires GoesOn(schema, refs) && Visit(doc, schema, refs).Ok?
    ensures x in Visit(doc, schema, refs).value
  {
    var props := JObj(fs);
    forall more | refs <= more && Children(doc, schema, more).Ok?
      ensures x in Children(doc, schema, more).value
    {
      StagesPrefix(doc, schema, 2, more);
      StagesStep(doc, schema, 1, more);
      var r1 := Stages(doc, schema, 1, more);
      StagesPrefix(doc, schema, 1, more);
      assert PropertyValues(props)[i] == fs[i].value;
      VisitAllCollects(doc, props, PropertyValues(props), i, x, r1.value);
      PrefixIn(x, Stages(doc, schema, 2, more).value, Children(doc, schema, more).value);
    }
    ChildrenInVisit(doc, schema, x, refs);
  }

  /** After its own reference, each `allOf`, `anyOf` and `oneOf` member of a node is still visited. */
  lemma MemberFollowed(doc: Json, schema: Json, g: nat, xs: seq<Json>, i: nat, x: string, refs: seq<string>)
    requires g < 3 && Get(schema, Compositions[g]) == Some(JArr(xs)) && i < |xs|
    requires Get(xs[i], "$ref") == Some(Str(x)) && x != ""
    requires GoesOn(schema, refs) && Visit(doc, schema, refs).Ok?
    ensures x in Visit(doc, schema, refs).value
  {
    forall more | refs <= more && Children(doc, schema, more).Ok?
      ensures x in Children(doc, schema, more).value
    {
      StagesPrefix(doc, schema, 3 + g, more);
      StagesPrefix(doc, schema, 2 + g, more);
      StagesStep(doc, schema, 2 + g, more);
      GroupStage(doc, schema, g, Stages(doc, schema, 2 + g, more).value);
      ItemsRefs(JArr(xs));
      VisitAllCollects(doc, JArr(xs), xs, i, x, Stages(doc, schema, 2 + g, more).value);
      PrefixIn(x, Stages(doc, schema, 3 + g, more).value, Children(doc, schema, more).value);
    }
    ChildrenInVisit(doc, schema, x, refs);
  }

  /** The method is matched after lower-casing: `GET` and `get` list the same models. */
  lemma MethodCaseIgnored(doc: Json, path: string, verb: string, other: string)
    requires Lower(verb) == Lower(other) && ModelsIn(doc, path, verb).Ok?
    ensures ModelsIn(doc, path, other) == ModelsIn(doc, path, verb)
  {
  }

  /** A response without `content` adds nothing, even with a Swagger 2 `schema`. */
  lemma ResponseSchemaIgnored(doc: Json, response: Json, refs: seq<string>)
    requires !response.JNull? && !TruthyOpt(Get(response, "content"))
    ensures ResponseRefs(doc, response, refs) == Ok(refs)
  {
    assert MediaTypes(response) == [];
  }

  /** The request-body references come first, then the parameters', then the responses'. */
  lemma PhasesInOrder(doc: Json, op: Json)
    requires OperationRefs(doc, op).Ok?
    ensures var body := BodyRefs(doc, op, []);
      body.Ok? && ParameterRefs(doc, op, body.value).Ok? &&
      body.value <= ParameterRefs(doc, op, body.value).value <= OperationRefs(doc, op).value
  {
  }

  /** A listing is one model per distinct reference, in the order the walk met them. */
  lemma ModelsDistinct(doc: Json, path: string, verb: string)
    requires ModelsIn(doc, path, verb).Ok?
    ensures var refs := OperationRefs(doc, OperationOf(doc, path, verb).value);
      refs.Ok? && Distinct(refs.value) && ModelsIn(doc, path, verb).value == ModelsOf(doc, refs.value)
  {
  }

  // ---------------------------------------------------------------- the service

  /** `resolveReference`: drops the first piece of the reference, then walks the rest. */
  method ResolveReference(ref: string, doc: Json) returns (r: Json)
    ensures r == Resolve(ref, doc)
  {
    var refParts := Split(ref, '/');
    refParts := refParts[1..];
    var current := doc;
    for i := 0 to |refParts|
      invariant Follow(current, refParts[i..]) == Follow(doc, refParts)
    {
      var next := Prop(current, refParts[i]);
      if !TruthyOpt(next) {
        return JNull;
      }
      assert refParts[i..][1..] == refParts[i + 1..];
      current := next.value;
    }
    assert refParts[|refParts|..] == [];
    return current;
  }

  /** The models and the set belong to the references in `order`, in insertion order, none repeated. */
  predicate Tracks(doc: Json, models: seq<Model>, seen: set<string>, order: seq<string>)
  {
    models == ModelsOf(doc, order) && seen == Elems(order) && Distinct(order)
  }

  /**
   * The shared state of one listing: the `models` array and the
   * `processedRefs` set that `extractReferencedModels` mutates.  `order`
   * is the set's insertion order.
   */
  class ModelCollector {
    const doc: Json
    var models: seq<Model>
    var processedRefs: set<string>
    ghost var order: seq<string>

    /** Each model belongs to one reference of the set, in insertion order, and none repeats. */
    ghost predicate Valid()
      reads this
    {
      Tracks(doc, models, processedRefs, order)
    }

    constructor(doc: Json)
      ensures this.doc == doc && models == [] && processedRefs == {} && order == [] && Valid()
    {
      this.doc := doc;
      models := [];
      processedRefs := {};
      order := [];
    }

    /** `extractReferencedModels(schema, models, processedRefs, doc)`; an error is what it throws. */
    method Extract(schema: Json) returns (err: Option<string>)
      requires Valid()
      modifies this
      ensures Visit(doc, schema, old(order)).Ok? ==> err.None? && order == Visit(doc, schema, old(order)).value && Valid()
      ensures Visit(doc, schema, old(order)).Err? ==> err == Some(Visit(doc, schema, old(order)).msg)
      decreases Unseen(doc, schema, order), schema, 3, 0
    {
      if !Truthy(schema) {
        return None;
      }
      var ref := Get(schema, "$ref");
      if TruthyOpt(ref) {
        VisitRef(doc, schema, order);
        if !ref.value.JStr? {
          return Some(ModelCode.RefSplitError);
        }
        var text := ref.value.s;
        if text in processedRefs {
          return None;
        }
        ghost var before := order;
        RefNodeNew(doc, schema, text, order);
        UnseenShrinks(doc, schema, text, order);
        ElemsAppend(order, text);
        ModelsOfAppend(doc, order, text);
        DistinctAppend(order, text);
        processedRefs := processedRefs + {text};
        order := order + [text];
        var resolved := ResolveReference(text, doc);
        models := models + [Model(LastSegment(text), resolved)];
        var referenced := ResolveReference(text, doc);
        if Truthy(referenced) {
          err := Extract(referenced);
          if err.Some? {
            return;
          }
        }
        UnseenSame(doc, schema, before, order);
      } else {
        VisitPlain(doc, schema, order);
      }
      err := ExtractChildren(schema);
    }

    /** Everything `extractReferencedModels` does after the `$ref` part. */
    method ExtractChildren(schema: Json) returns (err: Option<string>)
      requires Valid()
      modifies this
      ensures Children(doc, schema, old(order)).Ok? ==> err.None? && order == Children(doc, schema, old(order)).value && Valid()
      ensures Children(doc, schema, old(order)).Err? ==> err == Some(Children(doc, schema, old(order)).msg)
      decreases Unseen(doc, schema, order), schema, 1, 6
    {
      ghost var entry := order;
      StagesStep(doc, schema, 0, entry);
      err := ExtractItems(schema);
      if err.Some? {
        StagesErrStays(doc, schema, 1, entry);
        return;
      }
      UnseenSame(doc, schema, entry, order);
      StagesStep(doc, schema, 1, entry);
      err := ExtractProperties(schema);
      if err.Some? {
        StagesErrStays(doc, schema, 2, entry);
        return;
      }
      UnseenSame(doc, schema, entry, order);
      err := ExtractCompositions(schema, entry);
    }

    /** `['allOf', 'anyOf', 'oneOf'].forEach(...)`, after the items and properties of the same node. */
    method ExtractCompositions(schema: Json, ghost entry: seq<string>) returns (err: Option<string>)
      requires Valid() && Stages(doc, schema, 2, entry) == Ok(order)
      modifies this
      ensures Children(doc, schema, entry).Ok? ==> err.None? && order == Children(doc, schema, entry).value && Valid()
      ensures Children(doc, schema, entry).Err? ==> err == Some(Children(doc, schema, entry).msg)
      decreases Unseen(doc, schema, order), schema, 0, 3
    {
      ghost var start := order;
      for g := 0 to |Compositions|
        invariant Valid() && start <= order
        invariant Stages(doc, schema, 2 + g, entry) == Ok(order)
      {
        UnseenSame(doc, schema, start, order);
        CompositionStep(doc, schema, g, entry);
        ghost var before := order;
        err := ExtractGroup(schema, Compositions[g]);
        if err.Some? {
          StagesErrStays(doc, schema, 3 + g, entry);
          return;
        }
        assert start <= before <= order;
      }
      return None;
    }

    /** `if (schema.type === 'array' && schema.items) extractReferencedModels(schema.items, ...)`. */
    method ExtractItems(schema: Json) returns (err: Option<string>)
      requires Valid()
      modifies this
      ensures Stage(doc, schema, 0, old(order)).Ok? ==> err.None? && order == Stage(doc, schema, 0, old(order)).value && Valid()
      ensures Stage(doc, schema, 0, old(order)).Err? ==> err == Some(Stage(doc, schema, 0, old(order)).msg)
      decreases Unseen(doc, schema, order), schema, 0, 2
    {
      var items := Get(schema, "items");
      if Get(schema, "type") == Some(Str("array")) && TruthyOpt(items) {
        GetRefs(schema, "items");
        UnseenMono(doc, schema, items.value, order, order);
        err := Extract(items.value);
      } else {
        err := None;
      }
    }

    /** `for (const propName in schema.properties) extractReferencedModels(schema.properties[propName], ...)`. */
    method ExtractProperties(schema: Json) returns (err: Option<string>)
      requires Valid()
      modifies this
      ensures Stage(doc, schema, 1, old(order)).Ok? ==> err.None? && order == Stage(doc, schema, 1, old(order)).value && Valid()
      ensures Stage(doc, schema, 1, old(order)).Err? ==> err == Some(Stage(doc, schema, 1, old(order)).msg)
      decreases Unseen(doc, schema, order), schema, 0, 2
    {
      var props := Get(schema, "properties");
      if TruthyOpt(props) {
        GetRefs(schema, "properties");
        UnseenMono(doc, schema, props.value, order, order);
        err := ExtractAll(props.value, PropertyValues(props.value));
      } else {
        err := None;
      }
    }

    /** `if (Array.isArray(schema[key])) schema[key].forEach(...)`. */
    method ExtractGroup(schema: Json, key: string) returns (err: Option<string>)
      requires Valid()
      modifies this
      ensures Group(doc, schema, key, old(order)).Ok? ==> err.None? && order == Group(doc, schema, key, old(order)).value && Valid()
      ensures Group(doc, schema, key, old(order)).Err? ==> err == Some(Group(doc, schema, key, old(order)).msg)
      decreases Unseen(doc, schema, order), schema, 0, 2
    {
      var members := Get(schema, key);
      if members.Some? && members.value.JArr? {
        GetRefs(schema, key);
        ItemsRefs(members.value);
        UnseenMono(doc, schema, members.value, order, order);
        err := ExtractAll(members.value, members.value.items);
      } else {
        err := None;
      }
    }

    /** Visits each of `xs`, the children of `parent`, in order. */
    method ExtractAll(ghost parent: Json, xs: seq<Json>) returns (err: Option<string>)
      requires Valid()
      requires forall i :: 0 <= i < |xs| ==> xs[i] < parent && RefsIn(xs[i]) <= RefsIn(parent)
      modifies this
      ensures VisitAll(doc, parent, xs, old(order)).Ok? ==> err.None? && order == VisitAll(doc, parent, xs, old(order)).value && Valid()
      ensures VisitAll(doc, parent, xs, old(order)).Err? ==> err == Some(VisitAll(doc, parent, xs, old(order)).msg)
      decreases Unseen(doc, parent, order), parent, 0, |xs|
    {
      ghost var entry := order;
      for i := 0 to |xs|
        invariant Valid()
        invariant VisitAll(doc, parent, xs[..i], entry) == Ok(order)
      {
        VisitAllStep(doc, parent, xs, i, entry);
        UnseenMono(doc, parent, xs[i], entry, order);
        err := Extract(xs[i]);
        if err.Some? {
          VisitAllErrStays(doc, parent, xs, i + 1, entry);
          return;
        }
      }
      assert xs[..|xs|] == xs;
      return None;
    }
  }

  lemma VisitAllStep(doc: Json, parent: Json, xs: seq<Json>, i: nat, refs: seq<string>)
    requires i < |xs|
    requires forall k :: 0 <= k < |xs| ==> xs[k] < parent && RefsIn(xs[k]) <= RefsIn(parent)
    ensures var prev := VisitAll(doc, parent, xs[..i], refs);
      VisitAll(doc, parent, xs[..i + 1], refs) == if prev.Err? then prev else Visit(doc, xs[i], prev.value)
  {
    assert xs[..i + 1][..i] == xs[..i];
  }

  lemma {:induction false} VisitAllErrStays(doc: Json, parent: Json, xs: seq<Json>, n: nat, refs: seq<string>)
    requires n <= |xs|
    requires forall k :: 0 <= k < |xs| ==> xs[k] < parent && RefsIn(xs[k]) <= RefsIn(parent)
    requires VisitAll(doc, parent, xs[..n], refs).Err?
    ensures VisitAll(doc, parent, xs, refs) == VisitAll(doc, parent, xs[..n], refs)
    decreases |xs| - n
  {
    if n < |xs| {
      VisitAllStep(doc, parent, xs, n, refs);
      VisitAllErrStays(doc, parent, xs, n + 1, refs);
    } else {
      assert xs[..n] == xs;
    }
  }

  lemma {:induction false} StagesErrStays(doc: Json, schema: Json, n: nat, refs: seq<string>)
    requires n <= 5 && Stages(doc, schema, n, refs).Err?
    ensures Children(doc, schema, refs) == Stages(doc, schema, n, refs)
    decreases 5 - n
  {
    if n < 5 {
      StagesErrStays(doc, schema, n + 1, refs);
    }
  }

  lemma StagesStep(doc: Json, schema: Json, n: nat, refs: seq<string>)
    requires n < 5
    ensures var prev := Stages(doc, schema, n, refs);
      Stages(doc, schema, n + 1, refs) == if prev.Err? then prev else Stage(doc, schema, n, prev.value)
  {
  }

  lemma GroupStage(doc: Json, schema: Json, g: nat, refs: seq<string>)
    requires g < 3
    ensures Stage(doc, schema, 2 + g, refs) == Group(doc, schema, Compositions[g], refs)
  {
  }

  lemma VisitRef(doc: Json, schema: Json, refs: seq<string>)
    requires Truthy(schema) && TruthyOpt(Get(schema, "$ref"))
    ensures Visit(doc, schema, refs) == RefNode(doc, schema, Get(schema, "$ref").value, refs)
  {
  }

  lemma VisitPlain(doc: Json, schema: Json, refs: seq<string>)
    requires Truthy(schema) && !TruthyOpt(Get(schema, "$ref"))
    ensures Visit(doc, schema, refs) == Children(doc, schema, refs)
  {
  }

  lemma RefNodeNew(doc: Json, schema: Json, ref: string, refs: seq<string>)
    requires Get(schema, "$ref") == Some(Str(ref)) && ref !in refs
    ensures var target := Resolve(ref, doc);
      var first := if Truthy(target) then Visit(doc, target, refs + [ref]) else Ok(refs + [ref]);
      RefNode(doc, schema, Str(ref), refs) == if first.Err? then first else Children(doc, schema, first.value)
  {
  }

  /**
   * The loop over media-type objects (`for (const mediaType in content)`)
   * or parameters (`for (const parameter of operation.parameters)`): each
   * truthy `schema` is walked.
   */
  method ScanSchemas(c: ModelCollector, hs: seq<Json>) returns (err: Option<string>)
    requires c.Valid()
    modifies c
    ensures HoldersRefs(c.doc, hs, old(c.order)).Ok? ==> err.None? && c.order == HoldersRefs(c.doc, hs, old(c.order)).value && c.Valid()
    ensures HoldersRefs(c.doc, hs, old(c.order)).Err? ==> err == Some(HoldersRefs(c.doc, hs, old(c.order)).msg)
  {
    ghost var entry := c.order;
    for i := 0 to |hs|
      invariant c.Valid()
      invariant HoldersRefs(c.doc, hs[..i], entry) == Ok(c.order)
    {
      HoldersStep(c.doc, hs, i, entry);
      var holder := hs[i];
      if holder.JNull? {
        HoldersErrStays(c.doc, hs, i + 1, entry);
        return Some(NullRead("schema"));
      }
      var schema := Get(holder, "schema");
      if TruthyOpt(schema) {
        err := c.Extract(schema.value);
        if err.Some? {
          HoldersErrStays(c.doc, hs, i + 1, entry);
          return;
        }
      }
    }
    assert hs[..|hs|] == hs;
    return None;
  }

  /** `for (const statusCode in operation.responses)`: the media types of each response. */
  method ScanResponses(c: ModelCollector, rs: seq<Json>) returns (err: Option<string>)
    requires c.Valid()
    modifies c
    ensures ResponsesRefs(c.doc, rs, old(c.order)).Ok? ==> err.None? && c.order == ResponsesRefs(c.doc, rs, old(c.order)).value && c.Valid()
    ensures ResponsesRefs(c.doc, rs, old(c.order)).Err? ==> err == Some(ResponsesRefs(c.doc, rs, old(c.order)).msg)
  {
    ghost var entry := c.order;
    for i := 0 to |rs|
      invariant c.Valid()
      invariant ResponsesRefs(c.doc, rs[..i], entry) == Ok(c.order)
    {
      ResponsesStep(c.doc, rs, i, entry);
      var response := rs[i];
      if response.JNull? {
        ResponsesErrStays(c.doc, rs, i + 1, entry);
        return Some(NullRead("content"));
      }
      err := ScanSchemas(c, MediaTypes(response));
      if err.Some? {
        ResponsesErrStays(c.doc, rs, i + 1, entry);
        return;
      }
    }
    assert rs[..|rs|] == rs;
    return None;
  }

  /**
   * `listEndpointModels(params)`: the models of the operation stored under
   * `path` and `verb`, found in request bodies, then parameters, then
   * responses; the file system is the map `files` from file paths to parsed
   * documents.
   */
  method ListEndpointModels(files: map<string, Json>, path: string, verb: string, file: string)
    returns (r: Result<seq<Model>>)
    ensures r == EndpointModelsFor(files, path, verb, file)
  {
    if file == "" {
      return Err(Failure + "Swagger file path is required");
    }
    if file !in files {
      return Err(Failure + "Swagger file not found at " + file);
    }
    var doc := files[file];
    var found := OperationOf(doc, path, verb);
    if found.Err? {
      return Err(Failure + found.msg);
    }
    var op := found.value;
    var c := new ModelCollector(doc);
    var err: Option<string>;
    var body := Get(op, "requestBody");
    if TruthyOpt(body) {
      err := ScanSchemas(c, MediaTypes(body.value));
      if err.Some? {
        return Err(Failure + err.value);
      }
    }
    ghost var afterBody := c.order;
    var params := Get(op, "parameters");
    if TruthyOpt(params) {
      match params.value
      case JArr(xs) =>
        err := ScanSchemas(c, xs);
        if err.Some? {
          return Err(Failure + err.value);
        }
      case JStr(_) =>
      case _ =>
        return Err(Failure + NotIterable);
    }
    var responses := Get(op, "responses");
    if TruthyOpt(responses) {
      err := ScanResponses(c, Values(responses.value));
      if err.Some? {
        return Err(Failure + err.value);
      }
    }
    return Ok(c.models);
  }

  lemma HoldersStep(doc: Json, hs: seq<Json>, i: nat, refs: seq<string>)
    requires i < |hs|
    ensures var prev := HoldersRefs(doc, hs[..i], refs);
      HoldersRefs(doc, hs[..i + 1], refs) == if prev.Err? then prev else SchemaRefs(doc, hs[i], prev.value)
  {
    assert hs[..i + 1][..i] == hs[..i];
  }

  lemma {:induction false} HoldersErrStays(doc: Json, hs: seq<Json>, n: nat, refs: seq<string>)
    requires n <= |hs| && HoldersRefs(doc, hs[..n], refs).Err?
    ensures HoldersRefs(doc, hs, refs) == HoldersRefs(doc, hs[..n], refs)
    decreases |hs| - n
  {
    if n < |hs| {
      HoldersStep(doc, hs, n, refs);
      HoldersErrStays(doc, hs, n + 1, refs);
    } else {
      assert hs[..n] == hs;
    }
  }

  lemma ResponsesStep(doc: Json, rs: seq<Json>, i: nat, refs: seq<string>)
    requires i < |rs|
    ensures var prev := ResponsesRefs(doc, rs[..i], refs);
      ResponsesRefs(doc, rs[..i + 1], refs) == if prev.Err? then prev else ResponseRefs(doc, rs[i], prev.value)
  {
    assert rs[..i + 1][..i] == rs[..i];
  }

  lemma {:induction false} ResponsesErrStays(doc: Json, rs: seq<Json>, n: nat, refs: seq<string>)
    requires n <= |rs| && ResponsesRefs(doc, rs[..n], refs).Err?
    ensures ResponsesRefs(doc, rs, refs) == ResponsesRefs(doc, rs[..n], refs)
    decreases |rs| - n
  {
    if n < |rs| {
      ResponsesStep(doc, rs, n, refs);
      ResponsesErrStays(doc, rs, n + 1, refs);
    } else {
      assert rs[..n] == rs;
    }
  }

  lemma CompositionStep(doc: Json, schema: Json, g: nat, refs: seq<string>)
    requires g < 3
    ensures var prev := Stages(doc, schema, 2 + g, refs);
      Stages(doc, schema, 3 + g, refs) == if prev.Err? then prev else Group(doc, schema, Compositions[g], prev.value)
  {
    StagesStep(doc, schema, 2 + g, refs);
    if Stages(doc, schema, 2 + g, refs).Ok? {
      GroupStage(doc, schema, g, Stages(doc, schema, 2 + g, refs).value);
    }
  }
}
