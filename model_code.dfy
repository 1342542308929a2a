/**
 * The TypeScript interface renderer of src/services/generateModelCode.ts:
 * the model lookup by document version, the type mapping, and the
 * interface text with its members, `allOf`/`anyOf`/`oneOf` handling and
 * nested inline declarations.
 */
module ModelCode {
  import opened Text
  import opened Json

  // ---------------------------------------------------------------- names

  /** `s.replace(/[^\w]/g, '')`: the word characters of `s`, in order. */
  function WordChars(s: string): (r: string)
    ensures forall k :: 0 <= k < |r| ==> IsWordChar(r[k])
    ensures (forall k :: 0 <= k < |s| ==> IsWordChar(s[k])) ==> r == s
  {
    WordCharsTo(s, |s|)
  }

  function WordCharsTo(s: string, n: nat): (r: string)
    requires n <= |s|
    ensures forall k :: 0 <= k < |r| ==> IsWordChar(r[k])
    ensures (forall k :: 0 <= k < n ==> IsWordChar(s[k])) ==> r == s[..n]
  {
    if n == 0 then "" else WordCharsTo(s, n - 1) + (if IsWordChar(s[n - 1]) then [s[n - 1]] else "")
  }

  /** One character is kept exactly when it is a word character. */
  lemma WordCharsOne(c: char)
    ensures WordChars([c]) == if IsWordChar(c) then [c] else ""
  {
    assert WordCharsTo([c], 0) == "";
  }

  /** Filtering distributes over concatenation: the kept characters stay in their order. */
  lemma WordCharsAppend(a: string, b: string)
    ensures WordChars(a + b) == WordChars(a) + WordChars(b)
  {
    WordCharsToAppend(a, b, |b|);
  }

  lemma {:induction false} WordCharsToAppend(a: string, b: string, k: nat)
    requires k <= |b|
    ensures WordCharsTo(a + b, |a| + k) == WordChars(a) + WordCharsTo(b, k)
  {
    if k == 0 {
      WordCharsToPrefix(a + b, a, |a|);
    } else {
      WordCharsToAppend(a, b, k - 1);
      assert (a + b)[|a| + k - 1] == b[k - 1];
    }
  }

  /** `WordCharsTo(s, n)` reads only the first `n` characters of `s`. */
  lemma {:induction false} WordCharsToPrefix(s: string, t: string, n: nat)
    requires n <= |s| && n <= |t| && s[..n] == t[..n]
    ensures WordCharsTo(s, n) == WordCharsTo(t, n)
  {
    if n > 0 {
      assert s[n - 1] == s[..n][n - 1] == t[..n][n - 1] == t[n - 1];
      assert s[..n - 1] == s[..n][..n - 1] && t[..n - 1] == t[..n][..n - 1];
      WordCharsToPrefix(s, t, n - 1);
    }
  }

  /** `formatInterfaceName`: the word characters, the first one upper-cased. */
  function FormatInterfaceName(name: string): (r: string)
    ensures forall k :: 0 <= k < |r| ==> IsWordChar(r[k])
    ensures r != "" ==> !IsAsciiLower(r[0])
  {
    var w := WordChars(name);
    if w == "" then "" else [UpperChar(w[0])] + w[1..]
  }

  /** Formatting a formatted name changes nothing. */
  lemma FormatIdempotent(name: string)
    ensures FormatInterfaceName(FormatInterfaceName(name)) == FormatInterfaceName(name)
  {
    var f := FormatInterfaceName(name);
    assert WordChars(f) == f;
    if f != "" {
      assert [UpperChar(f[0])] + f[1..] == f;
    }
  }

  /** `getRefModelName`: the last piece of `ref.split('/')`. */
  function RefModelName(ref: string): string
  {
    var parts := Split(ref, '/');
    parts[|parts| - 1]
  }

  /** The model name of a reference is the text after its last `/`. */
  lemma RefModelNameAfterSlash(ref: string)
    ensures var r := RefModelName(ref);
      '/' !in r && EndsWith(ref, r) && ('/' in ref ==> |r| < |ref| && ref[|ref| - |r| - 1] == '/')
  {
    LastSegmentSplit(ref);
    LastSegmentSuffix(ref);
  }

  // ---------------------------------------------------------------- types

  /** The TypeError of `ref.split(...)` on a `$ref` that is not a string. */
  const RefSplitError := "ref.split is not a function"
  /** The TypeError of `schema.enum.map(...)` on an `enum` that is not an array. */
  const EnumMapError := "schema.enum.map is not a function"

  /** `'${value}'`. */
  function Quoted(v: Json): string
  {
    "'" + ToText(v) + "'"
  }

  /** `values.map(v => `'${v}'`).join(' | ')`. */
  function EnumUnion(vs: seq<Json>): string
  {
    Join(seq(|vs|, i requires 0 <= i < |vs| => Quoted(vs[i])), " | ")
  }

  /** The type named by a `$ref`: its formatted model name. */
  function RefType(ref: Json): Result<string>
  {
    if ref.JStr? then Ok(FormatInterfaceName(RefModelName(ref.s))) else Err(RefSplitError)
  }

  /** `T[]` and `Record<string, T>` around a component type that may have failed. */
  function Around(t: Result<string>, before: string, after: string): (r: Result<string>)
    ensures t.Err? ==> r == t
    ensures t.Ok? ==> r == Ok(before + t.value + after)
  {
    if t.Err? then t else Ok(before + t.value + after)
  }

  /** `getTypeScriptType`: a truthy `$ref` first, then the switch on `type`. */
  function TypeScriptType(s: Json): Result<string>
    decreases s
  {
    var ref := Get(s, "$ref");
    var t := Get(s, "type");
    if TruthyOpt(ref) then RefType(ref.value)
    else if t == Some(Str("string")) then
      var e := Get(s, "enum");
      if !TruthyOpt(e) then Ok("string")
      else if e.value.JArr? then Ok(EnumUnion(e.value.items))
      else Err(EnumMapError)
    else if t == Some(Str("integer")) || t == Some(Str("number")) then Ok("number")
    else if t == Some(Str("boolean")) then Ok("boolean")
    else if t == Some(Str("array")) then
      var items := Get(s, "items");
      if TruthyOpt(items) then Around(TypeScriptType(items.value), "", "[]") else Ok("any[]")
    else if t == Some(Str("object")) then
      var extra := Get(s, "additionalProperties");
      if TruthyOpt(extra) then Around(TypeScriptType(extra.value), "Record<string, ", ">")
      else Ok("Record<string, any>")
    else Ok("any")
  }

  /** The scalar rows of the type table, on schemas that carry only a `type`. */
  lemma ScalarTypes()
    ensures TypeScriptType(TypeNode("string")) == Ok("string")
    ensures TypeScriptType(TypeNode("integer")) == Ok("number")
    ensures TypeScriptType(TypeNode("number")) == Ok("number")
    ensures TypeScriptType(TypeNode("boolean")) == Ok("boolean")
  {
    TypeNodeGet("string");
    TypeNodeGet("integer");
    TypeNodeGet("number");
    TypeNodeGet("boolean");
  }

  /** Containers without a component type, and any other `type`. */
  lemma UntypedContainers()
    ensures TypeScriptType(TypeNode("array")) == Ok("any[]")
    ensures TypeScriptType(TypeNode("object")) == Ok("Record<string, any>")
    ensures TypeScriptType(TypeNode("file")) == Ok("any")
  {
    TypeNodeGet("array");
    TypeNodeGet("object");
    TypeNodeGet("file");
  }

  /** A type-only schema has its `type` and nothing else. */
  lemma TypeNodeGet(t: string)
    ensures Get(TypeNode(t), "type") == Some(Str(t))
    ensures forall k :: k != "type" ==> Get(TypeNode(t), k) == None
  {
    var fs := TypeNode(t).fields;
    assert fs[0] == Field("type", Str(t)) && fs[1..] == [];
    forall k | k != "type"
      ensures Get(TypeNode(t), k) == None
    {
      assert Lookup(fs[1..], k) == None;
    }
  }

  function TypeNode(t: string): Json
  {
    JObj([Field("type", Str(t))])
  }

  /** A `$ref` decides the type whatever `type` says. */
  lemma RefTakesPrecedence(s: Json, t: Json)
    requires s.JObj? && TruthyOpt(Get(s, "$ref"))
    ensures TypeScriptType(With(s, "type", t)) == TypeScriptType(s)
  {
    PutOther(s.fields, "type", t, "$ref");
  }

  /** A string schema with an `enum` array is the union of its quoted values, in order. */
  lemma EnumInOrder(s: Json, vs: seq<Json>)
    requires !TruthyOpt(Get(s, "$ref")) && Get(s, "type") == Some(Str("string"))
    requires Get(s, "enum") == Some(JArr(vs))
    ensures TypeScriptType(s) == Ok(Join(seq(|vs|, i requires 0 <= i < |vs| => "'" + ToText(vs[i]) + "'"), " | "))
  {
    assert Truthy(JArr(vs));
    assert seq(|vs|, i requires 0 <= i < |vs| => Quoted(vs[i]))
      == seq(|vs|, i requires 0 <= i < |vs| => "'" + ToText(vs[i]) + "'");
  }

  /** An array type is its item type followed by `[]`. */
  lemma ArrayOfItems(s: Json, items: Json)
    requires !TruthyOpt(Get(s, "$ref")) && Get(s, "type") == Some(Str("array"))
    requires Get(s, "items") == Some(items) && Truthy(items)
    ensures TypeScriptType(items).Ok? ==> TypeScriptType(s) == Ok(TypeScriptType(items).value + "[]")
    ensures TypeScriptType(items).Err? ==> TypeScriptType(s) == TypeScriptType(items)
  {
    if TypeScriptType(items).Ok? {
      var v := TypeScriptType(items).value;
      assert "" + v + "[]" == v + "[]";
    }
  }

  /** An object with additional properties is a record of their type. */
  lemma DictionaryOfValues(s: Json, extra: Json)
    requires !TruthyOpt(Get(s, "$ref")) && Get(s, "type") == Some(Str("object"))
    requires Get(s, "additionalProperties") == Some(extra) && Truthy(extra)
    ensures TypeScriptType(extra).Ok? ==> TypeScriptType(s) == Ok("Record<string, " + TypeScriptType(extra).value + ">")
    ensures TypeScriptType(extra).Err? ==> TypeScriptType(s) == TypeScriptType(extra)
  {
  }

  // ---------------------------------------------------------------- members

  /** One property line of the interface, with its optional JSDoc text. */
  datatype Member = Member(key: string, comment: Option<string>, optional: bool, tsType: string)

  /**
   * `holder.required && holder.required.includes(key)`: an array holds the
   * key as an element, a string as a substring; nothing else has `includes`.
   */
  function IsRequired(holder: string, schema: Json, key: string): Result<bool>
  {
    var req := Get(schema, "required");
    if !TruthyOpt(req) then Ok(false)
    else match req.value
      case JArr(xs) => Ok(Str(key) in xs)
      case JStr(t) => Ok(Contains(t, key))
      case _ => Err(holder + IncludesError)
  }

  /** The TypeError of `required.includes(...)` on a `required` that is neither array nor string. */
  const IncludesError := ".required.includes is not a function"

  /** The member for the entry `e` of the properties of `schema`. */
  function MemberOf(holder: string, schema: Json, e: Field): (r: Result<Member>)
  {
    if e.value.JNull? then Err(NullRead("description"))
    else
      var d := Get(e.value, "description");
      var req := IsRequired(holder, schema, e.key);
      var t := TypeScriptType(e.value);
      if req.Err? then Err(req.msg)
      else if t.Err? then Err(t.msg)
      else Ok(Member(e.key, if TruthyOpt(d) then Some(ToText(d.value)) else None, !req.value, t.value))
  }

  /** The members of the entries `es`, in order; the first failure wins. */
  function MembersOf(holder: string, schema: Json, es: seq<Field>): Result<seq<Member>>
  {
    if es == [] then Ok([])
    else
      var prev := MembersOf(holder, schema, es[..|es| - 1]);
      var m := MemberOf(holder, schema, es[|es| - 1]);
      if prev.Err? then prev
      else if m.Err? then Err(m.msg)
      else Ok(prev.value + [m.value])
  }

  /** Each entry gives one member, in entry order, optional exactly when not required. */
  lemma {:induction false} MembersInOrder(holder: string, schema: Json, es: seq<Field>)
    requires MembersOf(holder, schema, es).Ok?
    ensures var ms := MembersOf(holder, schema, es).value;
      |ms| == |es| && forall i :: 0 <= i < |es| ==>
        ms[i].key == es[i].key
        && IsRequired(holder, schema, es[i].key).Ok?
        && (ms[i].optional <==> !IsRequired(holder, schema, es[i].key).value)
        && TypeScriptType(es[i].value) == Ok(ms[i].tsType)
  {
    if es != [] {
      var n := |es| - 1;
      MembersInOrder(holder, schema, es[..n]);
      var ms := MembersOf(holder, schema, es).value;
      var m := MemberOf(holder, schema, es[n]);
      assert ms == MembersOf(holder, schema, es[..n]).value + [m.value];
      forall i | 0 <= i < |es|
        ensures ms[i].key == es[i].key && IsRequired(holder, schema, es[i].key).Ok?
          && (ms[i].optional <==> !IsRequired(holder, schema, es[i].key).value)
          && TypeScriptType(es[i].value) == Ok(ms[i].tsType)
      {
        if i < n {
          assert es[..n][i] == es[i];
        }
      }
    }
  }

  /** The JSDoc lines of a member, then `key?: type;`. */
  function MemberText(indent: string, m: Member): string
  {
    var doc := if m.comment.Some? then
        indent + "  /**\n" + indent + "  * " + m.comment.value + "\n" + indent + "  */\n"
      else "";
    doc + indent + "  " + m.key + (if m.optional then "?" else "") + ": " + m.tsType + ";\n"
  }

  /** The text of `ms`, one after the other. */
  function MembersText(indent: string, ms: seq<Member>): string
  {
    if ms == [] then "" else MembersText(indent, ms[..|ms| - 1]) + MemberText(indent, ms[|ms| - 1])
  }

  // ---------------------------------------------------------------- header and compositions

  /** The text `replace` looks for: the header without `extends`. */
  function Opening(name: string): string
  {
    Lead(name) + "{"
  }

  /** The header after an `allOf` reference to `base`. */
  function Extended(name: string, base: string): string
  {
    Lead(name) + "extends " + FormatInterfaceName(base) + " {"
  }

  /** `export interface <name> `, which both headers begin with. */
  function Lead(name: string): string
  {
    "export interface " + FormatInterfaceName(name) + " "
  }

  /** The JSDoc block of a schema with a truthy description. */
  function DocComment(indent: string, s: Json): string
  {
    var d := Get(s, "description");
    if TruthyOpt(d) then indent + "/**\n" + indent + " * " + ToText(d.value) + "\n" + indent + " */\n" else ""
  }

  /**
   * One `allOf` member: a `$ref` rewrites the first occurrence of the
   * unextended header, inline properties are appended after the text so far.
   */
  function AllOfStep(indent: string, name: string, m: Json, acc: string): Result<string>
  {
    var ref := Get(m, "$ref");
    var props := Get(m, "properties");
    if m.JNull? then Err(NullRead("$ref"))
    else if TruthyOpt(ref) then RefStep(name, ref.value, acc)
    else if TruthyOpt(props) then
      var ms := MembersOf("subSchema", m, Entries(props.value));
      if ms.Err? then Err(ms.msg) else Ok(acc + MembersText(indent, ms.value))
    else Ok(acc)
  }

  /** An `allOf` reference: the header gains `extends` and the referenced model name. */
  function RefStep(name: string, ref: Json, acc: string): Result<string>
  {
    if ref.JStr? then Ok(ReplaceFirst(acc, Opening(name), Extended(name, RefModelName(ref.s))))
    else Err(RefSplitError)
  }

  /** The `allOf` members in order, starting from the text `acc`. */
  function AllOf(indent: string, name: string, ms: seq<Json>, acc: string): Result<string>
  {
    if ms == [] then Ok(acc)
    else
      var prev := AllOf(indent, name, ms[..|ms| - 1], acc);
      if prev.Err? then prev else AllOfStep(indent, name, ms[|ms| - 1], prev.value)
  }

  /** Once the unextended header is gone, a later `$ref` member changes nothing. */
  lemma LaterRefIgnored(indent: string, name: string, m: Json, acc: string, ref: string)
    requires Get(m, "$ref") == Some(Str(ref)) && ref != ""
    requires !Contains(acc, Opening(name))
    ensures AllOfStep(indent, name, m, acc) == Ok(acc)
  {
  }

  /** The header's only `{` is its last character. */
  lemma OpeningBraceLast(name: string)
    ensures LastUnique(Opening(name))
  {
    var f := FormatInterfaceName(name);
    var p := Opening(name);
    var lit := "export interface ";
    forall k | 0 <= k < |p| - 1
      ensures p[k] != '{'
    {
      assert p[k] == Lead(name)[k];
      if k < |lit| {
        assert Lead(name)[k] == lit[k];
      } else if k < |lit| + |f| {
        assert Lead(name)[k] == f[k - |lit|];
      }
    }
    assert p[|p| - 1] == '{';
  }

  /**
   * When the text before a header holds no unextended header, a `$ref`
   * member rewrites exactly that header into the extended one.
   */
  lemma FirstRefExtends(indent: string, name: string, m: Json, pre: string, post: string, ref: string)
    requires Get(m, "$ref") == Some(Str(ref)) && ref != ""
    requires !Contains(pre, Opening(name))
    ensures AllOfStep(indent, name, m, pre + Opening(name) + post)
      == Ok(pre + Extended(name, RefModelName(ref)) + post)
  {
    OpeningBraceLast(name);
    ReplaceFirstAt(pre, Opening(name), post, Extended(name, RefModelName(ref)));
    assert RefStep(name, Str(ref), pre + Opening(name) + post) == Ok(pre + Extended(name, RefModelName(ref)) + post);
  }

  /** The alternatives of an `anyOf`/`oneOf`: a reference's model name, else `any`. */
  function UnionMember(m: Json): Result<string>
  {
    var ref := Get(m, "$ref");
    if m.JNull? then Err(NullRead("$ref"))
    else if TruthyOpt(ref) then RefType(ref.value)
    else Ok("any")
  }

  /** The alternatives of `ms`, in order; the first failure wins. */
  function UnionMembers(ms: seq<Json>): (r: Result<seq<string>>)
    ensures r.Ok? ==> |r.value| == |ms| && forall i :: 0 <= i < |ms| ==> UnionMember(ms[i]) == Ok(r.value[i])
  {
    if ms == [] then Ok([])
    else
      var prev := UnionMembers(ms[..|ms| - 1]);
      var m := UnionMember(ms[|ms| - 1]);
      if prev.Err? then prev
      else if m.Err? then Err(m.msg)
      else
        assert forall i :: 0 <= i < |ms| - 1 ==> ms[..|ms| - 1][i] == ms[i];
        Ok(prev.value + [m.value])
  }

  /** The comment line and the `value:` line of `anyOf` or `oneOf`. */
  function UnionLines(indent: string, key: string, alts: seq<string>): string
  {
    indent + "  // " + key + " union type\n" + indent + "  value: " + Join(alts, " | ") + ";\n"
  }

  /** `anyOf` or `oneOf` appended to `acc` when the schema holds an array under `key`. */
  function Union(indent: string, key: string, s: Json, acc: Result<string>): Result<string>
  {
    match Get(s, key)
    case Some(JArr(ms)) =>
      if acc.Err? then acc
      else
        var alts := UnionMembers(ms);
        if alts.Err? then Err(alts.msg) else Ok(acc.value + UnionLines(indent, key, alts.value))
    case _ => acc
  }

  /** `allOf`, then `anyOf`, then `oneOf`, each when it holds an array. */
  function Compositions(indent: string, name: string, s: Json, text: string): Result<string>
  {
    var all := match Get(s, "allOf")
      case Some(JArr(ms)) => AllOf(indent, name, ms, text)
      case _ => Ok(text);
    Union(indent, "oneOf", s, Union(indent, "anyOf", s, all))
  }

  // ---------------------------------------------------------------- the interface

  /** The text before the members: the JSDoc block and the header line. */
  function Head(indent: string, name: string, s: Json): string
  {
    DocComment(indent, s) + indent + Opening(name) + "\n"
  }

  /** The entries `for (const propName in schema.properties)` visits. */
  function PropEntries(s: Json): (r: seq<Field>)
    ensures forall i :: 0 <= i < |r| ==> r[i].value < s || r[i].value.JStr?
  {
    var props := Get(s, "properties");
    if TruthyOpt(props) then Entries(props.value) else []
  }

  /** `generateTypeScriptInterface(name, s, doc, level)`. */
  function InterfaceText(name: string, s: Json, level: nat): Result<string>
    decreases s, 2
  {
    var indent := Repeat("  ", level);
    var own := MembersOf("schema", s, PropEntries(s));
    if own.Err? then Err(own.msg)
    else
      var body := Compositions(indent, name, s, Head(indent, name, s) + MembersText(indent, own.value));
      if body.Err? then body
      else
        var nested := NestedAll(PropEntries(s), level, s);
        if nested.Err? then Err(nested.msg)
        else Ok(Closed(body.value + indent + "}\n", nested.value))
  }

  /** The interface followed by its nested declarations, if any. */
  function Closed(main: string, nested: seq<string>): string
  {
    if |nested| > 0 then main + "\n" + Join(nested, "\n") else main
  }

  /** An inline object: `type: 'object'` with properties and no `$ref`. */
  predicate InlineObject(p: Json)
  {
    Get(p, "type") == Some(Str("object")) && TruthyOpt(Get(p, "properties")) && !TruthyOpt(Get(p, "$ref"))
  }

  /** An inline array of inline objects. */
  predicate InlineArray(p: Json)
  {
    var items := Get(p, "items");
    Get(p, "type") == Some(Str("array")) && TruthyOpt(items) && InlineObject(items.value)
  }

  /** `generateNestedTypes`: the declaration of an inline object or array item, else `null`. */
  function NestedOf(p: Json, level: nat): Result<Option<string>>
    decreases p, 3
  {
    if p.JNull? then Err(NullRead("type"))
    else if InlineObject(p) then
      var t := InterfaceText("InlineType", p, level);
      if t.Err? then Err(t.msg) else Ok(Some(t.value))
    else if InlineArray(p) then
      var t := InterfaceText("InlineArrayItem", Get(p, "items").value, level);
      if t.Err? then Err(t.msg) else Ok(Some(t.value))
    else Ok(None)
  }

  /** The nested declarations of the properties `es`, in order, keeping the truthy ones. */
  function NestedAll(es: seq<Field>, level: nat, ghost parent: Json): Result<seq<string>>
    requires forall i :: 0 <= i < |es| ==> es[i].value < parent || es[i].value.JStr?
    decreases parent, 1, |es|
  {
    if es == [] then Ok([])
    else
      var prev := NestedAll(es[..|es| - 1], level, parent);
      var e := es[|es| - 1];
      var n := if e.value.JStr? then Ok(None) else NestedOf(e.value, level);
      if prev.Err? then prev
      else if n.Err? then Err(n.msg)
      else if n.value.Some? && n.value.value != "" then Ok(prev.value + [n.value.value])
      else prev
  }

  /** A string property is never expanded. */
  lemma StringNotNested(x: string, level: nat)
    ensures NestedOf(JStr(x), level) == Ok(None)
  {
  }

  /** The rendered interface names the model: the header survives every `allOf` rewrite. */
  lemma {:induction false} AllOfKeepsName(indent: string, name: string, ms: seq<Json>, acc: string)
    requires Contains(acc, Lead(name))
    requires AllOf(indent, name, ms, acc).Ok?
    ensures Contains(AllOf(indent, name, ms, acc).value, Lead(name))
  {
    if ms != [] {
      var prev := AllOf(indent, name, ms[..|ms| - 1], acc);
      AllOfKeepsName(indent, name, ms[..|ms| - 1], acc);
      StepKeepsName(indent, name, ms[|ms| - 1], prev.value);
    }
  }

  /** Both headers begin with `export interface <name> `. */
  lemma HeadersShareName(name: string, base: string)
    ensures StartsWith(Opening(name), Lead(name))
    ensures StartsWith(Extended(name, base), Lead(name))
  {
    assert Opening(name)[..|Lead(name)|] == Lead(name);
    assert Extended(name, base)[..|Lead(name)|] == Lead(name);
  }

  lemma StepKeepsName(indent: string, name: string, m: Json, acc: string)
    requires Contains(acc, Lead(name))
    requires AllOfStep(indent, name, m, acc).Ok?
    ensures Contains(AllOfStep(indent, name, m, acc).value, Lead(name))
  {
    var key := Lead(name);
    var ref := Get(m, "$ref");
    var props := Get(m, "properties");
    if TruthyOpt(ref) {
      var base := RefModelName(ref.value.s);
      HeadersShareName(name, base);
      ReplaceKeeps(acc, Opening(name), Extended(name, base), key);
    } else if TruthyOpt(props) {
      ContainsAppend(acc, key, MembersText(indent, MembersOf("subSchema", m, Entries(props.value)).value));
    }
  }

  /** `anyOf`/`oneOf` append to the text, keeping what it holds. */
  lemma UnionKeeps(indent: string, key: string, s: Json, acc: Result<string>, p: string)
    requires acc.Ok? && Contains(acc.value, p) && Union(indent, key, s, acc).Ok?
    ensures Contains(Union(indent, key, s, acc).value, p)
  {
    if Get(s, key).Some? && Get(s, key).value.JArr? {
      var alts := UnionMembers(Get(s, key).value.items);
      if alts.Ok? {
        ContainsAppend(acc.value, p, UnionLines(indent, key, alts.value));
      }
    }
  }

  /** The header and the own members name the model. */
  lemma HeadNamed(indent: string, name: string, s: Json, ms: seq<Member>)
    ensures Contains(Head(indent, name, s) + MembersText(indent, ms), Lead(name))
  {
    ContainsPrefix(Lead(name), "{");
    ContainsAmong(Opening(name), Lead(name), DocComment(indent, s) + indent, "\n", MembersText(indent, ms));
  }

  /** The compositions keep the header. */
  lemma CompositionsNamed(indent: string, name: string, s: Json, text: string)
    requires Contains(text, Lead(name)) && Compositions(indent, name, s, text).Ok?
    ensures Contains(Compositions(indent, name, s, text).value, Lead(name))
  {
    var all := match Get(s, "allOf")
      case Some(JArr(ms)) => AllOf(indent, name, ms, text)
      case _ => Ok(text);
    if Get(s, "allOf").Some? && Get(s, "allOf").value.JArr? {
      AllOfKeepsName(indent, name, Get(s, "allOf").value.items, text);
    }
    UnionKeeps(indent, "anyOf", s, all, Lead(name));
    UnionKeeps(indent, "oneOf", s, Union(indent, "anyOf", s, all), Lead(name));
  }

  /** Closing the interface and appending nested declarations keeps what it holds. */
  lemma ClosedKeeps(body: string, indent: string, nested: seq<string>, p: string)
    requires Contains(body, p)
    ensures Contains(Closed(body + indent + "}\n", nested), p)
  {
    ContainsAppend(body, p, indent);
    ContainsAppend(body + indent, p, "}\n");
    if |nested| > 0 {
      ContainsAppend(body + indent + "}\n", p, "\n");
      ContainsAppend(body + indent + "}\n" + "\n", p, Join(nested, "\n"));
    }
  }

  /** Every rendered interface declares the model under its formatted name. */
  lemma InterfaceNamed(name: string, s: Json, level: nat)
    requires InterfaceText(name, s, level).Ok?
    ensures Contains(InterfaceText(name, s, level).value, Lead(name))
  {
    var indent := Repeat("  ", level);
    var own := MembersOf("schema", s, PropEntries(s)).value;
    var text := Head(indent, name, s) + MembersText(indent, own);
    HeadNamed(indent, name, s, own);
    CompositionsNamed(indent, name, s, text);
    ClosedKeeps(Compositions(indent, name, s, text).value, indent, NestedAll(PropEntries(s), level, s).value, Lead(name));
  }

  /** An interface declared under the name `InlineType` or `InlineArrayItem`. */
  predicate InlineDeclaration(d: string)
  {
    Contains(d, Lead("InlineType")) || Contains(d, Lead("InlineArrayItem"))
  }

  /** A nested declaration is an inline interface. */
  lemma NestedOfNamed(p: Json, level: nat)
    requires NestedOf(p, level).Ok? && NestedOf(p, level).value.Some?
    ensures InlineDeclaration(NestedOf(p, level).value.value)
  {
    if InlineObject(p) {
      InterfaceNamed("InlineType", p, level);
    } else {
      InterfaceNamed("InlineArrayItem", Get(p, "items").value, level);
    }
  }

  /** At most one nested declaration per property, each an inline interface. */
  lemma {:induction false} NestedNamed(es: seq<Field>, level: nat, parent: Json)
    requires forall i :: 0 <= i < |es| ==> es[i].value < parent || es[i].value.JStr?
    requires NestedAll(es, level, parent).Ok?
    ensures var ns := NestedAll(es, level, parent).value;
      |ns| <= |es| && forall k :: 0 <= k < |ns| ==> InlineDeclaration(ns[k])
    decreases |es|
  {
    if es != [] {
      var i := |es| - 1;
      var e := es[i];
      NestedStep(es, level, parent, i, NestedAll(es[..i], level, parent).value);
      assert es[..i + 1] == es;
      NestedNamed(es[..i], level, parent);
      if !e.value.JStr? && NestedOf(e.value, level).Ok? && NestedOf(e.value, level).value.Some? {
        NestedOfNamed(e.value, level);
      }
    }
  }

  // ---------------------------------------------------------------- the renderer as a program

  /** `generateTypeScriptInterface`, accumulating `result` as the source does. */
  method GenerateTypeScriptInterface(name: string, s: Json, level: nat) returns (r: Result<string>)
    ensures r == InterfaceText(name, s, level)
    decreases s, 2
  {
    var indent := Repeat("  ", level);
    var es := PropEntries(s);
    var own := AppendMembers("schema", s, es, indent, Head(indent, name, s));
    if own.Err? {
      return own;
    }
    var body := CompositionsOf(indent, name, s, own.value);
    if body.Err? {
      return body;
    }
    var result := body.value + indent + "}\n";
    var nested := GenerateNested(es, level, s);
    if nested.Err? {
      return Err(nested.msg);
    }
    if |nested.value| > 0 {
      result := result + "\n" + Join(nested.value, "\n");
    }
    r := Ok(result);
  }

  /**
   * The `for (const propName in ...)` loop over properties: each entry's
   * JSDoc and property line appended to `text`; the first failure ends it.
   */
  method AppendMembers(holder: string, schema: Json, es: seq<Field>, indent: string, text: string)
    returns (r: Result<string>)
    ensures MembersOf(holder, schema, es).Err? ==> r == Err(MembersOf(holder, schema, es).msg)
    ensures MembersOf(holder, schema, es).Ok? ==> r == Ok(text + MembersText(indent, MembersOf(holder, schema, es).value))
  {
    var result := text;
    var i := 0;
    ghost var ms: seq<Member> := [];
    while i < |es|
      invariant 0 <= i <= |es|
      invariant MembersOf(holder, schema, es[..i]) == Ok(ms)
      invariant result == text + MembersText(indent, ms)
    {
      var m := MemberOf(holder, schema, es[i]);
      MembersStep(holder, schema, es, i, ms);
      if m.Err? {
        MembersErrStays(holder, schema, es, i + 1);
        return Err(m.msg);
      }
      MembersTextAfter(indent, text, ms, m.value);
      result := result + MemberText(indent, m.value);
      ms := ms + [m.value];
      i := i + 1;
    }
    assert es[..i] == es;
    r := Ok(result);
  }

  /** One more entry: its member is appended, or its failure is the result. */
  lemma MembersStep(holder: string, schema: Json, es: seq<Field>, i: nat, ms: seq<Member>)
    requires i < |es| && MembersOf(holder, schema, es[..i]) == Ok(ms)
    ensures var m := MemberOf(holder, schema, es[i]);
      MembersOf(holder, schema, es[..i + 1]) == if m.Err? then Err(m.msg) else Ok(ms + [m.value])
  {
    assert es[..i + 1][..i] == es[..i];
  }

  lemma MembersTextStep(indent: string, ms: seq<Member>, m: Member)
    ensures MembersText(indent, ms + [m]) == MembersText(indent, ms) + MemberText(indent, m)
  {
    assert (ms + [m])[..|ms|] == ms;
  }

  lemma MembersTextAfter(indent: string, text: string, ms: seq<Member>, m: Member)
    ensures text + MembersText(indent, ms + [m]) == text + MembersText(indent, ms) + MemberText(indent, m)
  {
    MembersTextStep(indent, ms, m);
  }

  /** A failure among the first `n` entries stays a failure for all of them. */
  lemma {:induction false} MembersErrStays(holder: string, schema: Json, es: seq<Field>, n: nat)
    requires n <= |es| && MembersOf(holder, schema, es[..n]).Err?
    ensures MembersOf(holder, schema, es) == MembersOf(holder, schema, es[..n])
    decreases |es| - n
  {
    if n < |es| {
      assert es[..n + 1][..n] == es[..n];
      MembersErrStays(holder, schema, es, n + 1);
    } else {
      assert es[..n] == es;
    }
  }

  /** The `['allOf', 'anyOf', 'oneOf'].forEach(...)` step. */
  method CompositionsOf(indent: string, name: string, s: Json, text: string) returns (r: Result<string>)
    ensures r == Compositions(indent, name, s, text)
  {
    var result := text;
    match Get(s, "allOf") {
      case Some(JArr(ms)) =>
        var i := 0;
        while i < |ms|
          invariant 0 <= i <= |ms|
          invariant AllOf(indent, name, ms[..i], text) == Ok(result)
        {
          AllOfNext(indent, name, ms, i, text, result);
          var next := ApplyAllOfMember(indent, name, ms[i], result);
          if next.Err? {
            AllOfErrStays(indent, name, ms, text, i + 1);
            r := Err(next.msg);
            return;
          }
          result := next.value;
          i := i + 1;
        }
        assert ms[..i] == ms;
      case _ =>
    }
    r := Union(indent, "oneOf", s, Union(indent, "anyOf", s, Ok(result)));
  }

  /** The body of `schema.allOf.forEach(...)` for one member. */
  method ApplyAllOfMember(indent: string, name: string, m: Json, text: string) returns (r: Result<string>)
    ensures r == AllOfStep(indent, name, m, text)
  {
    if m.JNull? {
      return Err(NullRead("$ref"));
    }
    var ref := Get(m, "$ref");
    var props := Get(m, "properties");
    if TruthyOpt(ref) {
      if !ref.value.JStr? {
        return Err(RefSplitError);
      }
      r := Ok(ReplaceFirst(text, Opening(name), Extended(name, RefModelName(ref.value.s))));
    } else if TruthyOpt(props) {
      r := AppendMembers("subSchema", m, Entries(props.value), indent, text);
    } else {
      r := Ok(text);
    }
  }

  /** One more `allOf` member applies its step to the text so far. */
  lemma AllOfNext(indent: string, name: string, ms: seq<Json>, i: nat, text: string, acc: string)
    requires i < |ms| && AllOf(indent, name, ms[..i], text) == Ok(acc)
    ensures AllOf(indent, name, ms[..i + 1], text) == AllOfStep(indent, name, ms[i], acc)
  {
    assert ms[..i + 1][..i] == ms[..i];
  }

  /** A failing `allOf` member fails the whole composition. */
  lemma {:induction false} AllOfErrStays(indent: string, name: string, ms: seq<Json>, acc: string, n: nat)
    requires n <= |ms| && AllOf(indent, name, ms[..n], acc).Err?
    ensures AllOf(indent, name, ms, acc) == AllOf(indent, name, ms[..n], acc)
    decreases |ms| - n
  {
    if n < |ms| {
      assert ms[..n + 1][..n] == ms[..n];
      AllOfErrStays(indent, name, ms, acc, n + 1);
    } else {
      assert ms[..n] == ms;
    }
  }

  /** The nested-types loop over the properties, pushing each truthy declaration. */
  method GenerateNested(es: seq<Field>, level: nat, ghost parent: Json) returns (r: Result<seq<string>>)
    requires forall i :: 0 <= i < |es| ==> es[i].value < parent || es[i].value.JStr?
    ensures r == NestedAll(es, level, parent)
    decreases parent, 1, 0
  {
    var nestedTypes: seq<string> := [];
    var i := 0;
    while i < |es|
      invariant 0 <= i <= |es|
      invariant NestedAll(es[..i], level, parent) == Ok(nestedTypes)
    {
      NestedStep(es, level, parent, i, nestedTypes);
      var n: Result<Option<string>> := Ok(None);
      if !es[i].value.JStr? {
        n := GenerateNestedTypes(es[i].value, level);
      }
      if n.Err? {
        NestedErrStays(es, level, parent, i + 1);
        return Err(n.msg);
      }
      if n.value.Some? && n.value.value != "" {
        nestedTypes := nestedTypes + [n.value.value];
      }
      i := i + 1;
    }
    assert es[..i] == es;
    r := Ok(nestedTypes);
  }

  /** One more property: its declaration is kept when truthy, its failure ends the loop. */
  lemma NestedStep(es: seq<Field>, level: nat, parent: Json, i: nat, acc: seq<string>)
    requires forall i :: 0 <= i < |es| ==> es[i].value < parent || es[i].value.JStr?
    requires i < |es| && NestedAll(es[..i], level, parent) == Ok(acc)
    ensures var n := if es[i].value.JStr? then Ok(None) else NestedOf(es[i].value, level);
      NestedAll(es[..i + 1], level, parent)
        == if n.Err? then Err(n.msg) else if n.value.Some? && n.value.value != "" then Ok(acc + [n.value.value]) else Ok(acc)
  {
    assert es[..i + 1][..i] == es[..i];
  }

  lemma {:induction false} NestedErrStays(es: seq<Field>, level: nat, parent: Json, n: nat)
    requires forall i :: 0 <= i < |es| ==> es[i].value < parent || es[i].value.JStr?
    requires n <= |es| && NestedAll(es[..n], level, parent).Err?
    ensures NestedAll(es, level, parent) == NestedAll(es[..n], level, parent)
    decreases |es| - n
  {
    if n < |es| {
      assert es[..n + 1][..n] == es[..n];
      NestedErrStays(es, level, parent, n + 1);
    } else {
      assert es[..n] == es;
    }
  }

  /** `generateNestedTypes`. */
  method GenerateNestedTypes(p: Json, level: nat) returns (r: Result<Option<string>>)
    ensures r == NestedOf(p, level)
    decreases p, 3
  {
    if p.JNull? {
      return Err(NullRead("type"));
    }
    if InlineObject(p) {
      var t := GenerateTypeScriptInterface("InlineType", p, level);
      return if t.Err? then Err(t.msg) else Ok(Some(t.value));
    }
    if InlineArray(p) {
      var t := GenerateTypeScriptInterface("InlineArrayItem", Get(p, "items").value, level);
      return if t.Err? then Err(t.msg) else Ok(Some(t.value));
    }
    r := Ok(None);
  }

  // ---------------------------------------------------------------- the model lookup

  /** The TypeError of calling `startsWith` on a version field that is not a string. */
  function StartsWithError(field: string): string
  {
    "swaggerDefinition." + field + StartsWithSuffix
  }

  const StartsWithSuffix := ".startsWith is not a function"

  const ModelFailure := "Error generating model code: "

  /** The message for a model the document does not define. */
  function NotFound(name: string): string
  {
    "Model '" + name + NotFoundSuffix
  }

  const NotFoundSuffix := "' not found in Swagger definition"

  /** `doc[field] && doc[field].startsWith(prefix)`. */
  function VersionIs(doc: Json, field: string, prefix: string): Result<bool>
  {
    var v := Get(doc, field);
    if !TruthyOpt(v) then Ok(false)
    else if v.value.JStr? then Ok(StartsWith(v.value.s, prefix))
    else Err(StartsWithError(field))
  }

  /**
   * The model schema: from `components.schemas` for OpenAPI 3, from
   * `definitions` for Swagger 2, and not found for any other document.
   */
  function ModelSchema(doc: Json, name: string): (r: Result<Json>)
    ensures r.Ok? ==> Truthy(r.value)
    ensures r.Err? ==> r.msg in {NotFound(name), StartsWithError("openapi"), StartsWithError("swagger")}
    ensures var o := Get(doc, "openapi");
      TruthyOpt(o) && !o.value.JStr? ==> r == Err(StartsWithError("openapi"))
    ensures var o := Get(doc, "openapi"); var w := Get(doc, "swagger");
      (!TruthyOpt(o) || (o.value.JStr? && !StartsWith(o.value.s, "3."))) && TruthyOpt(w) && !w.value.JStr? ==>
        r == Err(StartsWithError("swagger"))
    ensures var o := Get(doc, "openapi"); var m := Get(Or(GetOpt(Get(doc, "components"), "schemas"), JObj([])), name);
      TruthyOpt(o) && o.value.JStr? && StartsWith(o.value.s, "3.") ==>
        (r.Ok? <==> TruthyOpt(m)) && (r.Ok? ==> r.value == m.value) && (r.Err? ==> r.msg == NotFound(name))
    ensures var o := Get(doc, "openapi"); var w := Get(doc, "swagger"); var m := Get(Or(Get(doc, "definitions"), JObj([])), name);
      (!TruthyOpt(o) || (o.value.JStr? && !StartsWith(o.value.s, "3."))) && TruthyOpt(w) && w.value.JStr? && StartsWith(w.value.s, "2.") ==>
        (r.Ok? <==> TruthyOpt(m)) && (r.Ok? ==> r.value == m.value) && (r.Err? ==> r.msg == NotFound(name))
    ensures var o := Get(doc, "openapi"); var w := Get(doc, "swagger");
      (!TruthyOpt(o) || (o.value.JStr? && !StartsWith(o.value.s, "3."))) && (!TruthyOpt(w) || (w.value.JStr? && !StartsWith(w.value.s, "2."))) ==>
        r == Err(NotFound(name))
  {
    var v3 := VersionIs(doc, "openapi", "3.");
    var v2 := VersionIs(doc, "swagger", "2.");
    var found :=
      if v3.Err? then None
      else if v3.value then Get(Or(GetOpt(Get(doc, "components"), "schemas"), JObj([])), name)
      else if v2.Ok? && v2.value then Get(Or(Get(doc, "definitions"), JObj([])), name)
      else None;
    if v3.Err? then Err(v3.msg)
    else if !v3.value && v2.Err? then Err(v2.msg)
    else if !TruthyOpt(found) then Err(NotFound(name))
    else Ok(found.value)
  }

  /** An OpenAPI 3 document that lacks the model finds none, even when `definitions` has it. */
  lemma OpenApiWithoutModel(doc: Json, name: string, v: string)
    requires Get(doc, "openapi") == Some(Str(v)) && StartsWith(v, "3.")
    requires !TruthyOpt(Get(Or(GetOpt(Get(doc, "components"), "schemas"), JObj([])), name))
    ensures ModelSchema(doc, name) == Err(NotFound(name))
  {
  }

  /** A version string other than `3.` or `2.` (say an `openapi` of `4.0`) finds no model. */
  lemma UnknownVersionNotFound(doc: Json, name: string, v: string)
    requires Get(doc, "openapi") == Some(Str(v)) && v != "" && !StartsWith(v, "3.")
    requires !TruthyOpt(Get(doc, "swagger"))
    ensures ModelSchema(doc, name) == Err(NotFound(name))
  {
  }

  /** A document of neither version finds no model. */
  lemma OtherVersionNotFound(doc: Json, name: string)
    requires !TruthyOpt(Get(doc, "openapi")) && !TruthyOpt(Get(doc, "swagger"))
    ensures ModelSchema(doc, name) == Err(NotFound(name))
  {
  }

  /** An OpenAPI 3 document takes its models from `components.schemas` only. */
  lemma OpenApiUsesComponents(doc: Json, name: string, v: string, model: Json)
    requires Get(doc, "openapi") == Some(Str(v)) && StartsWith(v, "3.")
    requires Get(doc, "components").Some? && Get(Get(doc, "components").value, "schemas").Some?
    requires Get(Get(Get(doc, "components").value, "schemas").value, name) == Some(model) && Truthy(model)
    ensures ModelSchema(doc, name) == Ok(model)
  {
  }

  /** A Swagger 2 document that is not OpenAPI 3 takes its models from `definitions`. */
  lemma SwaggerUsesDefinitions(doc: Json, name: string, v: string, model: Json)
    requires !TruthyOpt(Get(doc, "openapi"))
    requires Get(doc, "swagger") == Some(Str(v)) && StartsWith(v, "2.")
    requires Get(doc, "definitions").Some? && Get(Get(doc, "definitions").value, name) == Some(model) && Truthy(model)
    ensures ModelSchema(doc, name) == Ok(model)
  {
  }

  /** `generateModelCode` on the file system `files`, from file paths to parsed documents. */
  function ModelCodeFor(files: map<string, Json>, name: string, path: string): (r: Result<string>)
    ensures path == "" ==> r == Err(ModelFailure + "Swagger file path is required")
    ensures path != "" && path !in files ==> r == Err(ModelFailure + "Swagger file not found at " + path)
  {
    if path == "" then Err(ModelFailure + "Swagger file path is required")
    else if path !in files then Err(ModelFailure + "Swagger file not found at " + path)
    else
      var m := ModelSchema(files[path], name);
      if m.Err? then Err(ModelFailure + m.msg)
      else
        var t := InterfaceText(name, m.value, 0);
        if t.Err? then Err(ModelFailure + t.msg) else t
  }

  /** `generateModelCode`. */
  method GenerateModelCode(files: map<string, Json>, name: string, path: string) returns (r: Result<string>)
    ensures r == ModelCodeFor(files, name, path)
  {
    if path == "" {
      return Err(ModelFailure + "Swagger file path is required");
    }
    if path !in files {
      return Err(ModelFailure + "Swagger file not found at " + path);
    }
    var m := ModelSchema(files[path], name);
    if m.Err? {
      return Err(ModelFailure + m.msg);
    }
    r := GenerateTypeScriptInterface(name, m.value, 0);
    if r.Err? {
      r := Err(ModelFailure + r.msg);
    }
  }
}
