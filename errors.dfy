/**
 * Flattening of nested error values into a list of messages, and the
 * single error text built from that list (src/utils/errors.ts).
 */
module Errors {
  import opened Text
  import opened Json

  /** `typeof v === "object" && v !== null`: arrays and objects. */
  predicate IsObject(v: Json)
  {
    v.JArr? || v.JObj?
  }

  /** The values a `for...in` loop over `v` reads, for the objects and arrays it is applied to. */
  function Members(v: Json): (r: seq<Json>)
    ensures forall i :: 0 <= i < |r| ==> r[i] < v
  {
    match v
    case JArr(xs) => xs
    case JObj(fs) => seq(|fs|, i requires 0 <= i < |fs| => fs[i].value)
    case _ => []
  }

  /**
   * `flattenErrors`: every message found in `e`.  Each message is a string
   * leaf or the truthy `message` value of an object, and is part of `e`.
   */
  function Flatten(e: Json): (r: seq<Json>)
    ensures forall i :: 0 <= i < |r| ==> r[i].JStr? || Truthy(r[i])
    ensures forall i :: 0 <= i < |r| ==> r[i] == e || r[i] < e
    decreases e
  {
    match e
    case JArr(xs) => FlattenEach(xs, e)
    case JObj(_) =>
      var message := Get(e, "message");
      var data := Get(e, "data");
      if TruthyOpt(message) then
        [message.value] + (if TruthyOpt(data) then Flatten(data.value) else [])
      else
        var fromData := if TruthyOpt(data) then FlattenObjects(Members(data.value), e) else [];
        if fromData != [] then fromData else FlattenEach(Members(e), e)
    case JStr(_) => [e]
    case _ => []
  }

  /** `xs.flatMap(flattenErrors)`. */
  function FlattenEach(xs: seq<Json>, ghost parent: Json): (r: seq<Json>)
    requires forall i :: 0 <= i < |xs| ==> xs[i] < parent
    ensures forall i :: 0 <= i < |r| ==> r[i].JStr? || Truthy(r[i])
    ensures forall i :: 0 <= i < |r| ==> r[i] < parent
    decreases parent, 0, |xs|
  {
    if xs == [] then [] else Flatten(xs[0]) + FlattenEach(xs[1..], parent)
  }

  /** The `data` loop: only object-valued entries are flattened. */
  function FlattenObjects(xs: seq<Json>, ghost parent: Json): (r: seq<Json>)
    requires forall i :: 0 <= i < |xs| ==> xs[i] < parent
    ensures forall i :: 0 <= i < |r| ==> r[i].JStr? || Truthy(r[i])
    ensures forall i :: 0 <= i < |r| ==> r[i] < parent
    decreases parent, 0, |xs|
  {
    if xs == [] then []
    else (if IsObject(xs[0]) then Flatten(xs[0]) else []) + FlattenObjects(xs[1..], parent)
  }

  lemma {:induction false} FlattenEachAppend(xs: seq<Json>, ys: seq<Json>, parent: Json)
    requires forall i :: 0 <= i < |xs| ==> xs[i] < parent
    requires forall i :: 0 <= i < |ys| ==> ys[i] < parent
    ensures FlattenEach(xs + ys, parent) == FlattenEach(xs, parent) + FlattenEach(ys, parent)
  {
    if xs == [] {
      assert xs + ys == ys;
    } else {
      assert (xs + ys)[1..] == xs[1..] + ys;
      FlattenEachAppend(xs[1..], ys, parent);
    }
  }

  lemma {:induction false} FlattenObjectsAppend(xs: seq<Json>, ys: seq<Json>, parent: Json)
    requires forall i :: 0 <= i < |xs| ==> xs[i] < parent
    requires forall i :: 0 <= i < |ys| ==> ys[i] < parent
    ensures FlattenObjects(xs + ys, parent) == FlattenObjects(xs, parent) + FlattenObjects(ys, parent)
  {
    if xs == [] {
      assert xs + ys == ys;
    } else {
      assert (xs + ys)[1..] == xs[1..] + ys;
      FlattenObjectsAppend(xs[1..], ys, parent);
    }
  }

  /** The list the ghost `parent` bounds is irrelevant to the result. */
  lemma {:induction false} FlattenEachParent(xs: seq<Json>, p: Json, q: Json)
    requires forall i :: 0 <= i < |xs| ==> xs[i] < p && xs[i] < q
    ensures FlattenEach(xs, p) == FlattenEach(xs, q)
  {
    if xs != [] {
      FlattenEachParent(xs[1..], p, q);
    }
  }

  /** An array flattens to the in-order concatenation of its two halves' messages. */
  lemma {:induction false} FlattenArrayConcat(xs: seq<Json>, ys: seq<Json>)
    ensures Flatten(JArr(xs + ys)) == Flatten(JArr(xs)) + Flatten(JArr(ys))
  {
    var all := JArr(xs + ys);
    assert forall i :: 0 <= i < |xs| ==> xs[i] == (xs + ys)[i];
    assert forall i :: 0 <= i < |ys| ==> ys[i] == (xs + ys)[|xs| + i];
    FlattenEachAppend(xs, ys, all);
    FlattenEachParent(xs, all, JArr(xs));
    FlattenEachParent(ys, all, JArr(ys));
  }

  /** An array of one element flattens like the element itself. */
  lemma FlattenSingleton(x: Json)
    ensures Flatten(JArr([x])) == Flatten(x)
  {
    assert FlattenEach([x], JArr([x])) == Flatten(x) + FlattenEach([], JArr([x]));
  }

  /** A string is a message of its own; other scalars carry none. */
  lemma FlattenScalars(s: string, n: int, b: bool)
    ensures Flatten(JStr(s)) == [JStr(s)]
    ensures Flatten(JNum(n)) == [] && Flatten(JBool(b)) == [] && Flatten(JNull) == []
  {
  }

  /** An object with a truthy `message` reports it first, followed by the messages of `data`. */
  lemma MessageFirst(fs: seq<Field>, m: Json)
    requires Lookup(fs, "message") == Some(m) && Truthy(m)
    ensures Flatten(JObj(fs)) == [m] + (if TruthyOpt(Lookup(fs, "data")) then Flatten(Lookup(fs, "data").value) else [])
    ensures Flatten(JObj(fs))[0] == m
  {
  }

  /**
   * An object without a truthy `message`: the messages of the object-valued
   * entries of a truthy `data` when there are any, and otherwise the
   * messages of all the object's values, in order.
   */
  lemma ObjectCases(fs: seq<Field>)
    requires !TruthyOpt(Get(JObj(fs), "message"))
    ensures var e := JObj(fs);
      var data := Get(JObj(fs), "data");
      var fromData := if TruthyOpt(data) then FlattenObjects(Members(data.value), e) else [];
      Flatten(e) == (if fromData != [] then fromData else FlattenEach(Members(e), e))
    ensures !TruthyOpt(Get(JObj(fs), "data")) ==> Flatten(JObj(fs)) == FlattenEach(Members(JObj(fs)), JObj(fs))
  {
  }

  /** The fallback reaches every value: an object without `message` and `data` flattens its values in order. */
  lemma {:induction false} ValuesFallback(fs: seq<Field>, gs: seq<Field>)
    requires !TruthyOpt(Get(JObj(fs + gs), "message")) && !TruthyOpt(Get(JObj(fs + gs), "data"))
    ensures Flatten(JObj(fs + gs)) == FlattenEach(Members(JObj(fs)), JObj(fs)) + FlattenEach(Members(JObj(gs)), JObj(gs))
  {
    var e := JObj(fs + gs);
    ObjectCases(fs + gs);
    assert forall i :: 0 <= i < |fs| ==> (fs + gs)[i] == fs[i];
    assert forall i :: 0 <= i < |gs| ==> (fs + gs)[|fs| + i] == gs[i];
    assert Members(e) == Members(JObj(fs)) + Members(JObj(gs));
    FlattenEachAppend(Members(JObj(fs)), Members(JObj(gs)), e);
    FlattenEachParent(Members(JObj(fs)), e, JObj(fs));
    FlattenEachParent(Members(JObj(gs)), e, JObj(gs));
  }

  /**
   * `flattenErrors`, as the source runs it: arrays and the `data` entries are
   * walked with loops that append to the result.
   */
  method FlattenErrors(e: Json) returns (r: seq<Json>)
    ensures r == Flatten(e)
    decreases e, 1
  {
    match e
    case JArr(xs) =>
      r := FlattenAll(xs, e);
    case JObj(_) =>
      var message := Get(e, "message");
      var data := Get(e, "data");
      if TruthyOpt(message) {
        var rest := [];
        if TruthyOpt(data) {
          rest := FlattenErrors(data.value);
        }
        return [message.value] + rest;
      }
      var messages := [];
      if TruthyOpt(data) {
        messages := FlattenData(Members(data.value), e);
        if messages != [] {
          return messages;
        }
      }
      r := FlattenAll(Members(e), e);
    case JStr(_) =>
      r := [e];
    case _ =>
      r := [];
  }

  /** `xs.flatMap(flattenErrors)` as a loop. */
  method FlattenAll(xs: seq<Json>, ghost parent: Json) returns (r: seq<Json>)
    requires forall i :: 0 <= i < |xs| ==> xs[i] < parent
    ensures r == FlattenEach(xs, parent)
    decreases parent, 0
  {
    r := [];
    var i := 0;
    while i < |xs|
      invariant 0 <= i <= |xs|
      invariant r == FlattenEach(xs[..i], parent)
    {
      var part := FlattenErrors(xs[i]);
      FlattenEachAppend(xs[..i], [xs[i]], parent);
      assert xs[..i + 1] == xs[..i] + [xs[i]];
      r := r + part;
      i := i + 1;
    }
    assert xs[..i] == xs;
  }

  /** The `for...in` loop over `data`, pushing the messages of its object-valued entries. */
  method FlattenData(vs: seq<Json>, ghost parent: Json) returns (messages: seq<Json>)
    requires forall i :: 0 <= i < |vs| ==> vs[i] < parent
    ensures messages == FlattenObjects(vs, parent)
    decreases parent, 0
  {
    messages := [];
    var i := 0;
    while i < |vs|
      invariant 0 <= i <= |vs|
      invariant messages == FlattenObjects(vs[..i], parent)
    {
      FlattenObjectsAppend(vs[..i], [vs[i]], parent);
      assert vs[..i + 1] == vs[..i] + [vs[i]];
      if IsObject(vs[i]) {
        var part := FlattenErrors(vs[i]);
        messages := messages + part;
      }
      i := i + 1;
    }
    assert vs[..i] == vs;
  }

  /** The line each message contributes to the joined text. */
  function MessageTexts(ms: seq<Json>): (r: seq<string>)
    ensures |r| == |ms|
    ensures forall i :: 0 <= i < |ms| ==> r[i] == ElemText(ms[i])
  {
    seq(|ms|, i requires 0 <= i < |ms| => ElemText(ms[i]))
  }

  /** `swaggerErrorMessage`: the messages one per line, or a fixed text when there are none. */
  function SwaggerErrorMessage(e: Json): (r: string)
    ensures Flatten(e) == [] ==> r == "Unknown error occurred"
    ensures Flatten(e) != [] ==> r == Join(MessageTexts(Flatten(e)), "\n")
  {
    var messages := Flatten(e);
    if |messages| > 0 then Join(MessageTexts(messages), "\n") else "Unknown error occurred"
  }

  /** When no message spans lines, the lines of the error text are exactly the messages. */
  lemma MessageLines(e: Json)
    requires Flatten(e) != []
    requires forall i :: 0 <= i < |Flatten(e)| ==> '\n' !in ElemText(Flatten(e)[i])
    ensures Split(SwaggerErrorMessage(e), '\n') == MessageTexts(Flatten(e))
  {
    SplitJoin(MessageTexts(Flatten(e)), '\n');
  }

  /**
   * The fixed fallback text appears exactly when nothing was found, unless
   * the only message found is that same text.
   */
  lemma UnknownOnlyWhenEmpty(e: Json)
    requires forall i :: 0 <= i < |Flatten(e)| ==> '\n' !in ElemText(Flatten(e)[i])
    ensures SwaggerErrorMessage(e) == "Unknown error occurred" <==>
      Flatten(e) == [] || MessageTexts(Flatten(e)) == ["Unknown error occurred"]
  {
    var ms := Flatten(e);
    if ms != [] {
      JoinIsText(MessageTexts(ms), "Unknown error occurred");
    }
  }

  /** Lines without newlines join to a given newline-free text only when that text is the one line. */
  lemma JoinIsText(texts: seq<string>, t: string)
    requires texts != [] && '\n' !in t
    requires forall i :: 0 <= i < |texts| ==> '\n' !in texts[i]
    ensures Join(texts, "\n") == t <==> texts == [t]
  {
    SplitJoin(texts, '\n');
    if Join(texts, "\n") == t {
      assert Split(t, '\n') == [t];
    }
  }
}
