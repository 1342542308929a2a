/**
 * Parsed JSON/YAML documents as values, with the JavaScript reading
 * conventions the services rely on: truthiness, `a || b`, optional
 * chaining, property assignment and `String(value)`.
 */
module Json {
  import opened Text

  /** A parsed value.  Object fields are kept in enumeration order; numbers are integers. */
  datatype Json =
    | JNull
    | JBool(b: bool)
    | JNum(n: int)
    | JStr(s: string)
    | JArr(items: seq<Json>)
    | JObj(fields: seq<Field>)

  datatype Field = Field(key: string, value: Json)

  /** `None` stands for JavaScript's `undefined`. */
  datatype Option<+T> = None | Some(value: T)

  /** A computation that either yields a value or throws an error with a message. */
  datatype Result<+T> = Ok(value: T) | Err(msg: string)

  /** JavaScript truthiness. */
  predicate Truthy(j: Json)
  {
    match j
    case JNull => false
    case JBool(b) => b
    case JNum(n) => n != 0
    case JStr(s) => s != ""
    case _ => true
  }

  predicate TruthyOpt(o: Option<Json>)
  {
    o.Some? && Truthy(o.value)
  }

  /**
   * The value of the first field named `key`. `JSON.parse` keeps the last of
   * repeated keys instead, but a parsed object never holds a key twice, so
   * the two readings agree on every document.
   */
  function Lookup(fs: seq<Field>, key: string): Option<Json>
  {
    if fs == [] then None
    else if fs[0].key == key then Some(fs[0].value)
    else Lookup(fs[1..], key)
  }

  /** A value found under `key` is the value of some field named `key`. */
  lemma {:induction false} LookupFound(fs: seq<Field>, key: string)
    ensures Lookup(fs, key).Some? ==> exists i :: 0 <= i < |fs| && fs[i] == Field(key, Lookup(fs, key).value)
  {
    if fs != [] && fs[0].key != key {
      LookupFound(fs[1..], key);
      if Lookup(fs, key).Some? {
        var i :| 0 <= i < |fs[1..]| && fs[1..][i] == Field(key, Lookup(fs, key).value);
        assert fs[i + 1] == fs[1..][i];
      }
    } else if fs != [] {
      assert fs[0] == Field(key, Lookup(fs, key).value);
    }
  }

  /** A key no field carries is not found. */
  lemma {:induction false} LookupAbsent(fs: seq<Field>, key: string)
    requires forall i :: 0 <= i < |fs| ==> fs[i].key != key
    ensures Lookup(fs, key).None?
  {
    if fs != [] {
      LookupAbsent(fs[1..], key);
    }
  }

  /** The property read `j[key]`; values other than objects have no properties here. */
  function Get(j: Json, key: string): (r: Option<Json>)
    ensures r.Some? ==> r.value < j
  {
    match j
    case JObj(fs) => LookupFound(fs, key); Lookup(fs, key)
    case _ => None
  }

  /** Optional chaining `o?.[key]`. */
  function GetOpt(o: Option<Json>, key: string): Option<Json>
  {
    if o.None? then None else Get(o.value, key)
  }

  /** `o || fallback`. */
  function Or(o: Option<Json>, fallback: Json): Json
  {
    if TruthyOpt(o) then o.value else fallback
  }

  /** The entries a `for...in` loop (or `Object.entries`) visits. */
  function Fields(j: Json): seq<Field>
  {
    if j.JObj? then j.fields else []
  }

  /**
   * The keys and values a `for...in` loop visits: an object's fields, an
   * array's or a string's indices; nothing for other values.
   */
  function Entries(j: Json): (r: seq<Field>)
    ensures j.JObj? ==> r == j.fields
    ensures j.JArr? ==> |r| == |j.items| && forall i :: 0 <= i < |r| ==> r[i].value == j.items[i]
    ensures !j.JObj? && !j.JArr? && !j.JStr? ==> r == []
  {
    match j
    case JObj(fs) => fs
    case JArr(xs) => seq(|xs|, i requires 0 <= i < |xs| => Field(NatToString(i), xs[i]))
    case JStr(s) => seq(|s|, i requires 0 <= i < |s| => Field(NatToString(i), JStr([s[i]])))
    case _ => []
  }

  /** The text of a field that holds a string. */
  function StringAt(j: Json, key: string): Option<string>
  {
    match Get(j, key)
    case Some(JStr(s)) => Some(s)
    case _ => None
  }

  /** The reference held in a schema node's `$ref`, when it is a non-empty string. */
  function RefOf(j: Json): (r: Option<string>)
    ensures r.Some? ==> r.value != ""
  {
    match StringAt(j, "$ref")
    case Some(s) => if s != "" then Some(s) else None
    case None => None
  }

  /** `obj[key] = v`: an existing field keeps its place, a new one is appended. */
  function Put(fs: seq<Field>, key: string, v: Json): (r: seq<Field>)
    ensures Lookup(r, key) == Some(v)
    ensures |r| == |fs| || r == fs + [Field(key, v)]
  {
    if fs == [] then [Field(key, v)]
    else if fs[0].key == key then [Field(key, v)] + fs[1..]
    else [fs[0]] + Put(fs[1..], key, v)
  }

  /** Assigning one property leaves every other property as it was. */
  lemma {:induction false} PutOther(fs: seq<Field>, key: string, v: Json, k: string)
    requires k != key
    ensures Lookup(Put(fs, key, v), k) == Lookup(fs, k)
  {
    if fs != [] && fs[0].key != key {
      PutOther(fs[1..], key, v, k);
    }
  }

  /** Assigning a new property appends it. */
  lemma {:induction false} PutNew(fs: seq<Field>, key: string, v: Json)
    requires Lookup(fs, key).None?
    ensures Put(fs, key, v) == fs + [Field(key, v)]
  {
    if fs != [] {
      assert fs[0].key != key;
      assert Lookup(fs[1..], key).None?;
      PutNew(fs[1..], key, v);
    }
  }

  /** `{...base, key: v}`. */
  function With(base: Json, key: string, v: Json): Json
  {
    JObj(Put(Fields(base), key, v))
  }

  /** `String(j)`, also used by template literals. */
  function ToText(j: Json): string
    decreases j, 0
  {
    match j
    case JNull => "null"
    case JBool(b) => if b then "true" else "false"
    case JNum(n) => IntToString(n)
    case JStr(s) => s
    case JArr(xs) => Join(seq(|xs|, i requires 0 <= i < |xs| => ElemText(xs[i])), ",")
    case JObj(_) => "[object Object]"
  }

  /** How `Array.prototype.join` renders one element: `null` becomes empty. */
  function ElemText(j: Json): string
    decreases j, 1
  {
    if j.JNull? then "" else ToText(j)
  }

  /** `String(undefined)` for an absent value. */
  function OptText(o: Option<Json>): string
  {
    if o.None? then "undefined" else ToText(o.value)
  }

  /** The message of the TypeError a property read on `null` throws. */
  function NullRead(prop: string): string
  {
    NullReadPrefix + prop + "')"
  }

  const NullReadPrefix := "Cannot read properties of null (reading '"

  function Str(s: string): Json { JStr(s) }

  /** The value reached by following `keys` from `j`, `None` once a step is missing. */
  function At(j: Json, keys: seq<string>): Option<Json>
  {
    if keys == [] then Some(j)
    else match Get(j, keys[0])
      case None => None
      case Some(v) => At(v, keys[1..])
  }
}
