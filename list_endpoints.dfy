/**
 * The endpoint listing: every operation under `paths`, in document order
 * (src/services/listEndpoints.ts).
 */
module ListEndpoints {
  import opened Text
  import opened Json

  /** One listed operation; absent properties are `None`. */
  datatype Endpoint = Endpoint(
    path: string,
    verb: string,
    summary: Option<Json>,
    description: Option<Json>,
    operationId: Option<Json>,
    tags: Option<Json>)

  const Verbs := ["get", "post", "put", "delete", "patch", "options", "head"]

  /** The keys of a path item that name an operation; the match is exact. */
  predicate IsVerb(key: string)
  {
    key in Verbs
  }

  /** The entry pushed for the operation `op` found under `path` with key `verb`. */
  function MakeEndpoint(path: string, verb: string, op: Json): Endpoint
  {
    Endpoint(path, Upper(verb), Get(op, "summary"), Get(op, "description"), Get(op, "operationId"), Get(op, "tags"))
  }

  /** Reading `operation.summary` fails exactly when the operation is `null`. */
  const NullOperation := NullRead("summary")

  /** The entries for the operations among `ms`, the entries of the path item under `path`. */
  function PathEndpoints(path: string, ms: seq<Field>): Result<seq<Endpoint>>
  {
    if ms == [] then Ok([])
    else
      var prev := PathEndpoints(path, ms[..|ms| - 1]);
      var m := ms[|ms| - 1];
      if prev.Err? || !IsVerb(m.key) then prev
      else if m.value.JNull? then Err(NullOperation)
      else Ok(prev.value + [MakeEndpoint(path, m.key, m.value)])
  }

  /** The entries for every path among `ps`, the entries of `paths`. */
  function AllEndpoints(ps: seq<Field>): Result<seq<Endpoint>>
  {
    ThenAll(Items(ps))
  }

  /** The listing of each path, in order. */
  function Items(ps: seq<Field>): (r: seq<Result<seq<Endpoint>>>)
    ensures |r| == |ps| && forall k :: 0 <= k < |ps| ==> r[k] == ItemEndpoints(ps[k])
  {
    seq(|ps|, k requires 0 <= k < |ps| => ItemEndpoints(ps[k]))
  }

  /** The listings of `rs` one after the other; the first failure wins. */
  function ThenAll(rs: seq<Result<seq<Endpoint>>>): Result<seq<Endpoint>>
  {
    if rs == [] then Ok([]) else Then(ThenAll(rs[..|rs| - 1]), rs[|rs| - 1])
  }

  /** The entries of `first` followed by those of `second`; the first failure wins. */
  function Then(first: Result<seq<Endpoint>>, second: Result<seq<Endpoint>>): (r: Result<seq<Endpoint>>)
    ensures r.Ok? <==> first.Ok? && second.Ok?
    ensures r.Ok? ==> r.value == first.value + second.value
    ensures r.Err? ==> r == (if first.Err? then first else second)
  {
    if first.Err? then first
    else if second.Err? then second
    else Ok(first.value + second.value)
  }

  /** The entries for one path of `paths`. */
  function ItemEndpoints(p: Field): Result<seq<Endpoint>>
  {
    PathEndpoints(p.key, Entries(p.value))
  }

  /** `swaggerJson.paths || {}`. */
  function PathsOf(doc: Json): Json
  {
    Or(Get(doc, "paths"), JObj([]))
  }

  /** The nested loops of `listEndpoints`, over paths and then over each path item's keys. */
  method CollectEndpoints(doc: Json) returns (r: Result<seq<Endpoint>>)
    ensures r == AllEndpoints(Entries(PathsOf(doc)))
  {
    var ps := Entries(PathsOf(doc));
    var endpoints: seq<Endpoint> := [];
    var i := 0;
    while i < |ps|
      invariant 0 <= i <= |ps|
      invariant AllEndpoints(ps[..i]) == Ok(endpoints)
    {
      var path := ps[i].key;
      var ms := Entries(ps[i].value);
      var found: seq<Endpoint> := [];
      var j := 0;
      while j < |ms|
        invariant 0 <= j <= |ms|
        invariant PathEndpoints(path, ms[..j]) == Ok(found)
      {
        assert ms[..j + 1][..j] == ms[..j];
        if IsVerb(ms[j].key) {
          var operation := ms[j].value;
          if operation.JNull? {
            assert PathEndpoints(path, ms[..j + 1]).Err?;
            PathErrStays(path, ms, j + 1);
            ItemsPrefix(ps, i);
            AllErrStays(ps, i + 1);
            return Err(NullOperation);
          }
          found := found + [MakeEndpoint(path, ms[j].key, operation)];
        }
        j := j + 1;
      }
      assert ms[..j] == ms;
      ItemsPrefix(ps, i);
      endpoints := endpoints + found;
      i := i + 1;
    }
    assert ps[..i] == ps;
    return Ok(endpoints);
  }

  /** Once one operation is `null`, the whole listing fails. */
  lemma {:induction false} PathErrStays(path: string, ms: seq<Field>, n: nat)
    requires n <= |ms| && PathEndpoints(path, ms[..n]).Err?
    ensures PathEndpoints(path, ms) == Err(NullOperation)
    decreases |ms| - n
  {
    if n == |ms| {
      assert ms[..n] == ms;
      PathErrIsNull(path, ms);
    } else {
      assert ms[..n + 1][..n] == ms[..n];
      PathErrStays(path, ms, n + 1);
    }
  }

  lemma {:induction false} PathErrIsNull(path: string, ms: seq<Field>)
    ensures PathEndpoints(path, ms).Err? ==> PathEndpoints(path, ms) == Err(NullOperation)
  {
    if ms != [] {
      PathErrIsNull(path, ms[..|ms| - 1]);
    }
  }

  lemma {:induction false} AllErrStays(ps: seq<Field>, n: nat)
    requires n <= |ps| && AllEndpoints(ps[..n]) == Err(NullOperation)
    ensures AllEndpoints(ps) == Err(NullOperation)
    decreases |ps| - n
  {
    if n == |ps| {
      assert ps[..n] == ps;
    } else {
      ItemsPrefix(ps, n);
      AllErrStays(ps, n + 1);
    }
  }

  /**
   * `listEndpoints`: a present, parsed document file gives the listing; the
   * file system is the map `files` from file paths to parsed documents. A
   * document that is literally `null` fails on its `openapi` read.
   */
  method ListEndpoints(files: map<string, Json>, swaggerFilePath: string) returns (r: Result<seq<Endpoint>>)
    ensures swaggerFilePath == "" ==> r == Err("Error listing endpoints: Swagger file path is required")
    ensures swaggerFilePath != "" && swaggerFilePath !in files ==>
      r == Err("Error listing endpoints: Swagger file not found at " + swaggerFilePath)
    ensures swaggerFilePath != "" && swaggerFilePath in files && files[swaggerFilePath].JNull? ==>
      r == Err("Error listing endpoints: " + NullRead("openapi"))
    ensures swaggerFilePath != "" && swaggerFilePath in files && !files[swaggerFilePath].JNull? ==>
      match AllEndpoints(Entries(PathsOf(files[swaggerFilePath])))
      case Ok(es) => r == Ok(es)
      case Err(m) => r == Err("Error listing endpoints: " + m)
  {
    if swaggerFilePath == "" {
      return Err("Error listing endpoints: Swagger file path is required");
    }
    if swaggerFilePath !in files {
      return Err("Error listing endpoints: Swagger file not found at " + swaggerFilePath);
    }
    if files[swaggerFilePath].JNull? {
      // `swaggerJson.openapi` is read before `paths`
      return Err("Error listing endpoints: " + NullRead("openapi"));
    }
    r := CollectEndpoints(files[swaggerFilePath]);
    if r.Err? {
      r := Err("Error listing endpoints: " + r.msg);
    }
  }

  // ---------------------------------------------------------------- properties

  /** The entries of a path item whose key is a verb, in key order. */
  function VerbFields(ms: seq<Field>): (r: seq<Field>)
    ensures forall k :: 0 <= k < |r| ==> IsVerb(r[k].key) && r[k] in ms
    ensures forall k :: 0 <= k < |ms| && IsVerb(ms[k].key) ==> ms[k] in r
  {
    if ms == [] then []
    else
      var init := ms[..|ms| - 1];
      assert forall k :: 0 <= k < |init| ==> init[k] == ms[k];
      VerbFields(init) + (if IsVerb(ms[|ms| - 1].key) then [ms[|ms| - 1]] else [])
  }

  /** A path item's listing is exactly its verb-keyed operations, in key order. */
  lemma {:induction false} PathEndpointsMembers(path: string, ms: seq<Field>)
    requires PathEndpoints(path, ms).Ok?
    ensures forall k :: 0 <= k < |ms| && IsVerb(ms[k].key) ==> !ms[k].value.JNull?
    ensures var es := PathEndpoints(path, ms).value;
      forall e :: e in es <==> exists k :: 0 <= k < |ms| && IsVerb(ms[k].key) && e == MakeEndpoint(path, ms[k].key, ms[k].value)
    ensures var es := PathEndpoints(path, ms).value; var vs := VerbFields(ms);
      |es| == |vs| && forall i :: 0 <= i < |es| ==> es[i] == MakeEndpoint(path, vs[i].key, vs[i].value)
  {
    if ms != [] {
      var init := ms[..|ms| - 1];
      PathEndpointsMembers(path, init);
      assert forall k :: 0 <= k < |init| ==> init[k] == ms[k];
    }
  }

  /** The whole listing is exactly the operations listed for each path. */
  lemma AllEndpointsMembers(ps: seq<Field>)
    requires AllEndpoints(ps).Ok?
    ensures forall k :: 0 <= k < |ps| ==> ItemEndpoints(ps[k]).Ok?
    ensures forall e :: e in AllEndpoints(ps).value <==>
      (exists k :: 0 <= k < |ps| && ItemEndpoints(ps[k]).Ok? && e in ItemEndpoints(ps[k]).value)
  {
    var rs := Items(ps);
    ThenAllMembers(rs);
    forall e | e in AllEndpoints(ps).value
      ensures exists k :: 0 <= k < |ps| && ItemEndpoints(ps[k]).Ok? && e in ItemEndpoints(ps[k]).value
    {
      var k :| 0 <= k < |rs| && e in rs[k].value;
      assert rs[k] == ItemEndpoints(ps[k]);
    }
  }

  lemma {:induction false} ThenAllMembers(rs: seq<Result<seq<Endpoint>>>)
    requires ThenAll(rs).Ok?
    ensures forall k :: 0 <= k < |rs| ==> rs[k].Ok?
    ensures forall e :: e in ThenAll(rs).value <==> (exists k :: 0 <= k < |rs| && rs[k].Ok? && e in rs[k].value)
  {
    if rs != [] {
      var init := rs[..|rs| - 1];
      ThenAllMembers(init);
      assert forall k :: 0 <= k < |init| ==> init[k] == rs[k];
    }
  }

  /** The listing fails only for a `null` operation, and then with the property-read error. */
  lemma AllEndpointsErr(ps: seq<Field>)
    ensures AllEndpoints(ps).Err? <==> exists k :: 0 <= k < |ps| && ItemEndpoints(ps[k]).Err?
    ensures AllEndpoints(ps).Err? ==> AllEndpoints(ps) == Err(NullOperation)
  {
    var rs := Items(ps);
    forall k | 0 <= k < |rs| ensures rs[k].Err? ==> rs[k] == Err(NullOperation) {
      PathErrIsNull(ps[k].key, Entries(ps[k].value));
    }
    ThenAllErr(rs, NullOperation);
    if AllEndpoints(ps).Err? {
      var k :| 0 <= k < |rs| && rs[k].Err?;
      assert ItemEndpoints(ps[k]).Err?;
    }
  }

  lemma {:induction false} ThenAllErr(rs: seq<Result<seq<Endpoint>>>, msg: string)
    requires forall k :: 0 <= k < |rs| && rs[k].Err? ==> rs[k] == Err(msg)
    ensures ThenAll(rs).Err? <==> exists k :: 0 <= k < |rs| && rs[k].Err?
    ensures ThenAll(rs).Err? ==> ThenAll(rs) == Err(msg)
  {
    if rs != [] {
      var init := rs[..|rs| - 1];
      assert forall k :: 0 <= k < |init| ==> init[k] == rs[k];
      ThenAllErr(init, msg);
    }
  }

  lemma ItemsPrefix(ps: seq<Field>, i: nat)
    requires i < |ps|
    ensures AllEndpoints(ps[..i + 1]) == Then(AllEndpoints(ps[..i]), ItemEndpoints(ps[i]))
  {
    var rs := Items(ps[..i + 1]);
    assert rs[..i] == Items(ps[..i]);
  }

  /** A path item fails exactly when one of its verb-keyed operations is `null`. */
  lemma {:induction false} PathEndpointsErr(path: string, ms: seq<Field>)
    ensures PathEndpoints(path, ms).Err? <==> exists k :: 0 <= k < |ms| && IsVerb(ms[k].key) && ms[k].value.JNull?
  {
    if ms != [] {
      var init := ms[..|ms| - 1];
      PathEndpointsErr(path, init);
      assert forall k :: 0 <= k < |init| ==> init[k] == ms[k];
    }
  }

  lemma UpperVerbs()
    ensures Upper("get") == "GET" && Upper("post") == "POST" && Upper("put") == "PUT"
    ensures Upper("delete") == "DELETE" && Upper("patch") == "PATCH"
    ensures Upper("options") == "OPTIONS" && Upper("head") == "HEAD"
  {
    UpperWord("get", "GET");
    UpperWord("post", "POST");
    UpperWord("put", "PUT");
    UpperWord("delete", "DELETE");
    UpperWord("patch", "PATCH");
    UpperWord("options", "OPTIONS");
    UpperWord("head", "HEAD");
  }

  lemma UpperWord(w: string, u: string)
    requires |w| == |u| && forall i :: 0 <= i < |w| ==> IsAsciiLower(w[i]) && u[i] as int == w[i] as int - 32
    ensures Upper(w) == u
  {
  }

  /** Every listed method (`verb`) is an upper-cased HTTP verb, and every entry names its path. */
  lemma {:induction false} ListedMethods(path: string, ms: seq<Field>)
    requires PathEndpoints(path, ms).Ok?
    ensures forall e :: e in PathEndpoints(path, ms).value ==>
      e.path == path && e.verb in ["GET", "POST", "PUT", "DELETE", "PATCH", "OPTIONS", "HEAD"]
  {
    if ms != [] {
      ListedMethods(path, ms[..|ms| - 1]);
      UpperVerbs();
    }
  }

  /** A document without `paths` lists nothing. */
  lemma NoPaths(doc: Json)
    requires Get(doc, "paths").None?
    ensures AllEndpoints(Entries(PathsOf(doc))) == Ok([])
  {
  }

  lemma ThenAssoc(a: Result<seq<Endpoint>>, b: Result<seq<Endpoint>>, c: Result<seq<Endpoint>>)
    ensures Then(Then(a, b), c) == Then(a, Then(b, c))
  {
    if a.Ok? && b.Ok? && c.Ok? {
      assert (a.value + b.value) + c.value == a.value + (b.value + c.value);
    }
  }

  /** Key order is kept: the operations of two groups of paths come out group by group. */
  lemma AllEndpointsAppend(ps: seq<Field>, qs: seq<Field>)
    ensures AllEndpoints(ps + qs) == Then(AllEndpoints(ps), AllEndpoints(qs))
  {
    assert Items(ps + qs) == Items(ps) + Items(qs);
    ThenAllAppend(Items(ps), Items(qs));
  }

  lemma {:induction false} ThenAllAppend(rs: seq<Result<seq<Endpoint>>>, ss: seq<Result<seq<Endpoint>>>)
    ensures ThenAll(rs + ss) == Then(ThenAll(rs), ThenAll(ss))
  {
    if ss == [] {
      assert rs + ss == rs;
      assert ThenAll(rs).Ok? ==> ThenAll(rs).value + [] == ThenAll(rs).value;
    } else {
      var init := ss[..|ss| - 1];
      var whole := rs + ss;
      assert whole[..|whole| - 1] == rs + init;
      assert whole[|whole| - 1] == ss[|ss| - 1];
      ThenAllAppend(rs, init);
      ThenAssoc(ThenAll(rs), ThenAll(init), ss[|ss| - 1]);
    }
  }
}
