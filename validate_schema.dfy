/**
 * The pattern checks run over generated tool code, and the report that lists
 * their failures (src/utils/validateMCPSchema.ts).
 */
module ValidateSchema {
  import opened Text
  import opened Json

  /** The regular-expression class `\s`: white space and line terminators. */
  predicate IsSpace(c: char)
  {
    var n := c as int;
    (9 <= n <= 13) || n == 32 || n == 0xA0 || n == 0x1680 || (0x2000 <= n <= 0x200A)
    || n == 0x2028 || n == 0x2029 || n == 0x202F || n == 0x205F || n == 0x3000 || n == 0xFEFF
  }

  /** The class `["']`. */
  predicate IsQuote(c: char) { c == '"' || c == '\'' }

  /** Where the run of `\s` characters that starts at `j` ends. */
  function SkipSpaces(s: string, j: nat): (r: nat)
    requires j <= |s|
    ensures j <= r <= |s|
    ensures forall k :: j <= k < r ==> IsSpace(s[k])
    ensures r < |s| ==> !IsSpace(s[r])
    decreases |s| - j
  {
    if j < |s| && IsSpace(s[j]) then SkipSpaces(s, j + 1) else j
  }

  /** Where the run of characters matching `[^"']` that starts at `j` ends. */
  function SkipUnquoted(s: string, j: nat): (r: nat)
    requires j <= |s|
    ensures j <= r <= |s|
    ensures forall k :: j <= k < r ==> !IsQuote(s[k])
    ensures r < |s| ==> IsQuote(s[r])
    decreases |s| - j
  {
    if j < |s| && !IsQuote(s[j]) then SkipUnquoted(s, j + 1) else j
  }

  /** A run of spaces that ends where a non-space starts is the run `SkipSpaces` finds. */
  lemma SkipSpacesAt(s: string, j: nat, r: nat)
    requires j <= r < |s| && !IsSpace(s[r])
    requires forall k :: j <= k < r ==> IsSpace(s[k])
    ensures SkipSpaces(s, j) == r
  {
  }

  /** A run of non-quotes that ends at a quote is the run `SkipUnquoted` finds. */
  lemma SkipUnquotedAt(s: string, j: nat, r: nat)
    requires j <= r < |s| && IsQuote(s[r])
    requires forall k :: j <= k < r ==> !IsQuote(s[k])
    ensures SkipUnquoted(s, j) == r
  {
  }

  // A quote, a brace and a letter are not white space, and a run of
  // non-quotes is followed by a quote, so each `\s*` and `[^"']+` below can
  // only match its longest run: the patterns match without backtracking.

  /** A match of `name:\s*["']([^"']+)["']` starting at `i`. */
  predicate NameMatchAt(s: string, i: int)
  {
    OccursAt(s, "name:", i) &&
    var j := SkipSpaces(s, i + 5);
    j < |s| && IsQuote(s[j]) && j + 1 < SkipUnquoted(s, j + 1) < |s|
  }

  /** A match of `inputSchema:\s*{` starting at `i`. */
  predicate InputSchemaMatchAt(s: string, i: int)
  {
    OccursAt(s, "inputSchema:", i) &&
    var j := SkipSpaces(s, i + 12);
    j < |s| && s[j] == '{'
  }

  /** A match of `type:\s*["']object["']` starting at `i`. */
  predicate TypeMatchAt(s: string, i: int)
  {
    OccursAt(s, "type:", i) &&
    QuotedObjectAt(s, SkipSpaces(s, i + 5))
  }

  /** `["']object["']` at `j`. */
  predicate QuotedObjectAt(s: string, j: int)
  {
    0 <= j && j + 7 < |s| && IsQuote(s[j]) && OccursAt(s, "object", j + 1) && IsQuote(s[j + 7])
  }

  const HandlerPrefix := "export async function handle"

  /** A match of `export async function handle(\w+)` starting at `i`. */
  predicate HandlerMatchAt(s: string, i: int)
  {
    OccursAt(s, HandlerPrefix, i) && i + |HandlerPrefix| < |s| && IsWordChar(s[i + |HandlerPrefix|])
  }

  predicate HasName(s: string) { exists i :: 0 <= i < |s| && NameMatchAt(s, i) }
  predicate HasInputSchema(s: string) { exists i :: 0 <= i < |s| && InputSchemaMatchAt(s, i) }
  predicate HasObjectType(s: string) { exists i :: 0 <= i < |s| && TypeMatchAt(s, i) }
  predicate HasHandler(s: string) { exists i :: 0 <= i < |s| && HandlerMatchAt(s, i) }

  /** The four checks that can fail, in the order they run. */
  datatype Check = NameCheck | InputSchemaCheck | TypeCheck | HandlerCheck

  /** Whether `code` passes check `c`. */
  predicate Passes(c: Check, code: string)
  {
    match c
    case NameCheck => HasName(code)
    case InputSchemaCheck => HasInputSchema(code)
    case TypeCheck => HasObjectType(code)
    case HandlerCheck => HasHandler(code)
  }

  /** The error message of a failed check. */
  const NameMessage := "Missing \"name\" property in tool definition"
  const InputSchemaMessage := "Missing \"inputSchema\" property in tool definition"
  const TypeMessage := "Missing or incorrect \"type\" property in inputSchema (must be \"object\")"
  const HandlerMessage := "Missing handler function in tool definition"

  function Message(c: Check): string
  {
    match c
    case NameCheck => NameMessage
    case InputSchemaCheck => InputSchemaMessage
    case TypeCheck => TypeMessage
    case HandlerCheck => HandlerMessage
  }

  /** Where a check stands in the order the checks run. */
  function Position(c: Check): nat
  {
    match c
    case NameCheck => 0
    case InputSchemaCheck => 1
    case TypeCheck => 2
    case HandlerCheck => 3
  }

  /** Different checks report different messages, so a report names the checks that failed. */
  lemma MessageInjective(c: Check, d: Check)
    ensures Message(c) == Message(d) ==> c == d
  {
    if c != d {
      assert |Message(c)| != |Message(d)|;
    }
  }

  /**
   * `validateMCPSchema`: the errors of the four checks, valid exactly when
   * there are none.
   */
  method ValidateMCPSchema(code: string) returns (isValid: bool, errors: seq<string>)
    ensures errors == CheckErrors(code)
    ensures isValid <==> errors == []
  {
    errors := [];
    ghost var failed: seq<Check> := [];
    errors := RunCheck(code, NameCheck, errors, failed);
    failed := Step(failed, NameCheck, code);
    errors := RunCheck(code, InputSchemaCheck, errors, failed);
    failed := Step(failed, InputSchemaCheck, code);
    errors := RunCheck(code, TypeCheck, errors, failed);
    failed := Step(failed, TypeCheck, code);
    errors := RunCheck(code, HandlerCheck, errors, failed);
    failed := Step(failed, HandlerCheck, code);
    isValid := |errors| == 0;
  }

  /** One check of `validateMCPSchema`: its message is pushed when the code fails it. */
  method RunCheck(code: string, c: Check, errors: seq<string>, ghost failed: seq<Check>) returns (next: seq<string>)
    requires errors == Messages(failed)
    ensures next == Messages(Step(failed, c, code))
  {
    next := errors;
    if !Passes(c, code) {
      next := next + [Message(c)];
    }
    StepMessages(failed, c, code);
  }

  // A match found in a piece of text is still a match once text is put before or after it.

  lemma {:induction false} SkipSpacesAfter(a: string, s: string, j: nat)
    requires j <= |s|
    ensures SkipSpaces(a + s, |a| + j) == |a| + SkipSpaces(s, j)
    decreases |s| - j
  {
    if j < |s| {
      assert (a + s)[|a| + j] == s[j];
      if IsSpace(s[j]) {
        SkipSpacesAfter(a, s, j + 1);
      }
    }
  }

  lemma SkipSpacesBefore(s: string, b: string, j: nat)
    requires j <= |s| && SkipSpaces(s, j) < |s|
    ensures SkipSpaces(s + b, j) == SkipSpaces(s, j)
  {
    var r := SkipSpaces(s, j);
    assert (s + b)[r] == s[r];
    forall k | j <= k < r ensures (s + b)[k] == s[k] {
    }
    SkipSpacesAt(s + b, j, r);
  }


  lemma {:induction false} SkipUnquotedAfter(a: string, s: string, j: nat)
    requires j <= |s|
    ensures SkipUnquoted(a + s, |a| + j) == |a| + SkipUnquoted(s, j)
    decreases |s| - j
  {
    if j < |s| {
      assert (a + s)[|a| + j] == s[j];
      if !IsQuote(s[j]) {
        SkipUnquotedAfter(a, s, j + 1);
      }
    }
  }

  lemma SkipUnquotedBefore(s: string, b: string, j: nat)
    requires j <= |s| && SkipUnquoted(s, j) < |s|
    ensures SkipUnquoted(s + b, j) == SkipUnquoted(s, j)
  {
    var r := SkipUnquoted(s, j);
    assert (s + b)[r] == s[r];
    forall k | j <= k < r ensures (s + b)[k] == s[k] {
    }
    SkipUnquotedAt(s + b, j, r);
  }


  lemma NameAfter(a: string, s: string, i: int)
    requires NameMatchAt(s, i)
    ensures NameMatchAt(a + s, |a| + i)
  {
    var j := SkipSpaces(s, i + 5);
    OccursInContext(s, "name:", a, i);
    SkipSpacesAfter(a, s, i + 5);
    SkipUnquotedAfter(a, s, j + 1);
    assert (a + s)[|a| + j] == s[j];
  }

  lemma NameBefore(s: string, b: string, i: int)
    requires NameMatchAt(s, i)
    ensures NameMatchAt(s + b, i)
  {
    var j := SkipSpaces(s, i + 5);
    OccursInPrefix(s, "name:", b, i);
    SkipSpacesBefore(s, b, i + 5);
    SkipUnquotedBefore(s, b, j + 1);
    assert (s + b)[j] == s[j];
  }

  lemma SchemaAfter(a: string, s: string, i: int)
    requires InputSchemaMatchAt(s, i)
    ensures InputSchemaMatchAt(a + s, |a| + i)
  {
    var j := SkipSpaces(s, i + 12);
    OccursInContext(s, "inputSchema:", a, i);
    SkipSpacesAfter(a, s, i + 12);
    assert (a + s)[|a| + j] == s[j];
  }

  lemma SchemaBefore(s: string, b: string, i: int)
    requires InputSchemaMatchAt(s, i)
    ensures InputSchemaMatchAt(s + b, i)
  {
    var j := SkipSpaces(s, i + 12);
    OccursInPrefix(s, "inputSchema:", b, i);
    SkipSpacesBefore(s, b, i + 12);
    assert (s + b)[j] == s[j];
  }

  lemma QuotedObjectAfter(a: string, s: string, j: int)
    requires QuotedObjectAt(s, j)
    ensures QuotedObjectAt(a + s, |a| + j)
  {
    OccursInContext(s, "object", a, j + 1);
    assert (a + s)[|a| + j] == s[j] && (a + s)[|a| + j + 7] == s[j + 7];
  }

  lemma QuotedObjectBefore(s: string, b: string, j: int)
    requires QuotedObjectAt(s, j)
    ensures QuotedObjectAt(s + b, j)
  {
    OccursInPrefix(s, "object", b, j + 1);
    assert (s + b)[j] == s[j] && (s + b)[j + 7] == s[j + 7];
  }

  lemma TypeAfter(a: string, s: string, i: int)
    requires TypeMatchAt(s, i)
    ensures TypeMatchAt(a + s, |a| + i)
  {
    OccursInContext(s, "type:", a, i);
    SkipSpacesAfter(a, s, i + 5);
    QuotedObjectAfter(a, s, SkipSpaces(s, i + 5));
  }

  lemma TypeBefore(s: string, b: string, i: int)
    requires TypeMatchAt(s, i)
    ensures TypeMatchAt(s + b, i)
  {
    OccursInPrefix(s, "type:", b, i);
    SkipSpacesBefore(s, b, i + 5);
    QuotedObjectBefore(s, b, SkipSpaces(s, i + 5));
  }

  lemma HandlerAfter(a: string, s: string, i: int)
    requires HandlerMatchAt(s, i)
    ensures HandlerMatchAt(a + s, |a| + i)
  {
    OccursInContext(s, HandlerPrefix, a, i);
    assert (a + s)[|a| + i + |HandlerPrefix|] == s[i + |HandlerPrefix|];
  }

  lemma HandlerBefore(s: string, b: string, i: int)
    requires HandlerMatchAt(s, i)
    ensures HandlerMatchAt(s + b, i)
  {
    OccursInPrefix(s, HandlerPrefix, b, i);
    assert (s + b)[i + |HandlerPrefix|] == s[i + |HandlerPrefix|];
  }

  /** A match of check `c` starting at `i`. */
  predicate MatchAt(c: Check, s: string, i: int)
  {
    match c
    case NameCheck => NameMatchAt(s, i)
    case InputSchemaCheck => InputSchemaMatchAt(s, i)
    case TypeCheck => TypeMatchAt(s, i)
    case HandlerCheck => HandlerMatchAt(s, i)
  }

  /** A text with a match passes the check. */
  lemma MatchPasses(c: Check, s: string, i: int)
    requires MatchAt(c, s, i)
    ensures Passes(c, s)
  {
  }

  /** A match is still a match, shifted, once text is put before it. */
  lemma MatchAfter(c: Check, a: string, s: string, i: int)
    requires MatchAt(c, s, i)
    ensures MatchAt(c, a + s, |a| + i)
  {
    match c
    case NameCheck => NameAfter(a, s, i);
    case InputSchemaCheck => SchemaAfter(a, s, i);
    case TypeCheck => TypeAfter(a, s, i);
    case HandlerCheck => HandlerAfter(a, s, i);
  }

  /** A match is still a match once text is put after it. */
  lemma MatchBefore(c: Check, s: string, b: string, i: int)
    requires MatchAt(c, s, i)
    ensures MatchAt(c, s + b, i)
  {
    match c
    case NameCheck => NameBefore(s, b, i);
    case InputSchemaCheck => SchemaBefore(s, b, i);
    case TypeCheck => TypeBefore(s, b, i);
    case HandlerCheck => HandlerBefore(s, b, i);
  }

  /** The failures so far once check `c` has run. */
  function Step(failed: seq<Check>, c: Check, code: string): seq<Check>
  {
    if Passes(c, code) then failed else failed + [c]
  }

  /** The checks `code` fails, in the order they run. */
  function Failed(code: string): seq<Check>
  {
    Step(Step(Step(Step([], NameCheck, code), InputSchemaCheck, code), TypeCheck, code), HandlerCheck, code)
  }

  /** Checks listed in the order they run. */
  predicate InOrder(cs: seq<Check>)
  {
    forall i, j :: 0 <= i < j < |cs| ==> Position(cs[i]) < Position(cs[j])
  }

  /** A check that runs after the earlier failures keeps them in order and adds itself exactly when it fails. */
  lemma StepFacts(failed: seq<Check>, c: Check, code: string)
    requires InOrder(failed)
    requires forall d :: d in failed ==> Position(d) < Position(c)
    ensures InOrder(Step(failed, c, code))
    ensures forall d :: d in Step(failed, c, code) <==> d in failed || (d == c && !Passes(c, code))
    ensures forall d :: d in Step(failed, c, code) ==> Position(d) <= Position(c)
  {
  }

  /** `Failed` lists exactly the checks that fail, in the order they run. */
  lemma FailedChecks(code: string)
    ensures forall c :: c in Failed(code) <==> !Passes(c, code)
    ensures InOrder(Failed(code))
  {
    var f1 := Step([], NameCheck, code);
    StepFacts([], NameCheck, code);
    var f2 := Step(f1, InputSchemaCheck, code);
    StepFacts(f1, InputSchemaCheck, code);
    var f3 := Step(f2, TypeCheck, code);
    StepFacts(f2, TypeCheck, code);
    StepFacts(f3, HandlerCheck, code);
  }

  /** The message of each check, in order. */
  function Messages(cs: seq<Check>): (r: seq<string>)
    ensures |r| == |cs|
    ensures forall i :: 0 <= i < |cs| ==> r[i] == Message(cs[i])
  {
    if cs == [] then [] else Messages(cs[..|cs| - 1]) + [Message(cs[|cs| - 1])]
  }

  /** Running one more check adds its message exactly when it fails. */
  lemma StepMessages(failed: seq<Check>, c: Check, code: string)
    ensures Messages(Step(failed, c, code)) ==
      if Passes(c, code) then Messages(failed) else Messages(failed) + [Message(c)]
  {
    if !Passes(c, code) {
      assert (failed + [c])[..|failed|] == failed;
    }
  }

  /**
   * The error list of `validateMCPSchema`: one message per failed check, in
   * check order.  The description, `properties` and `required` patterns are
   * looked for by the source but never add an error.
   */
  function CheckErrors(code: string): (errors: seq<string>)
    ensures |errors| == |Failed(code)| <= 4
    ensures forall i :: 0 <= i < |errors| ==> errors[i] == Message(Failed(code)[i])
  {
    Messages(Failed(code))
  }

  /** Code that passes every check gets an empty error list. */
  lemma AllPass(code: string)
    requires Passes(NameCheck, code) && Passes(InputSchemaCheck, code)
    requires Passes(TypeCheck, code) && Passes(HandlerCheck, code)
    ensures CheckErrors(code) == []
  {
    assert Failed(code) == [];
  }

  /** A check's message is in the error list exactly when the check fails. */
  lemma ErrorReported(code: string, c: Check)
    ensures Message(c) in CheckErrors(code) <==> !Passes(c, code)
  {
    var errors := CheckErrors(code);
    FailedChecks(code);
    if !Passes(c, code) {
      var i :| 0 <= i < |Failed(code)| && Failed(code)[i] == c;
      assert errors[i] == Message(c);
    }
    if Message(c) in errors {
      var i :| 0 <= i < |errors| && errors[i] == Message(c);
      MessageInjective(c, Failed(code)[i]);
    }
  }


  const ReportHead :=
    "\nMCP Schema Validation Failed\n"
    + "============================\n\n"
    + "The generated tool definition"
    + " does not comply with the MCP schema.\n"
    + "Please fix the following issues:\n\n"
  const ReportTail :=
    "\n\nFor more information about"
    + " the MCP schema, see:\n"
    + "https://github.com/ModelContextProtocol/spec\n"

  /** Each error as a `- ` bullet. */
  function Bullets(errors: seq<string>): (r: seq<string>)
    ensures |r| == |errors|
    ensures forall i :: 0 <= i < |errors| ==> r[i] == "- " + errors[i]
  {
    seq(|errors|, i requires 0 <= i < |errors| => "- " + errors[i])
  }

  /** `formatValidationErrors`. */
  function FormatValidationErrors(errors: seq<string>): string
  {
    ReportHead + Join(Bullets(errors), "\n") + ReportTail
  }

  /**
   * Reads the errors back out of a report: the text between the fixed head
   * and tail, one `- ` bullet per line.
   */
  function ParseReport(r: string): Option<seq<string>>
  {
    if |ReportHead| + |ReportTail| <= |r| && StartsWith(r, ReportHead) && EndsWith(r, ReportTail) then
      var lines := Split(r[|ReportHead|..|r| - |ReportTail|], '\n');
      Some(seq(|lines|, i requires 0 <= i < |lines| => if StartsWith(lines[i], "- ") then lines[i][2..] else lines[i]))
    else None
  }

  /** Every error of the report is on a line of its own, in order, between the fixed head and tail. */
  lemma {:induction false} ReportRoundTrip(errors: seq<string>)
    requires errors != []
    requires forall i :: 0 <= i < |errors| ==> '\n' !in errors[i]
    ensures StartsWith(FormatValidationErrors(errors), ReportHead)
    ensures EndsWith(FormatValidationErrors(errors), ReportTail)
    ensures ParseReport(FormatValidationErrors(errors)) == Some(errors)
  {
    var bullets := Bullets(errors);
    var body := Join(bullets, "\n");
    var r := FormatValidationErrors(errors);
    assert r[..|ReportHead|] == ReportHead;
    assert r[|r| - |ReportTail|..] == ReportTail;
    assert r[|ReportHead|..|r| - |ReportTail|] == body;
    forall i | 0 <= i < |bullets| ensures '\n' !in bullets[i] {
      assert bullets[i] == "- " + errors[i];
      assert bullets[i][2..] == errors[i];
      assert bullets[i][..2] == "- ";
    }
    SplitJoin(bullets, '\n');
    var lines := Split(r[|ReportHead|..|r| - |ReportTail|], '\n');
    assert lines == bullets;
    var got := ParseReport(r).value;
    assert |got| == |errors|;
    forall i | 0 <= i < |errors| ensures got[i] == errors[i] {
      assert bullets[i] == "- " + errors[i];
      assert StartsWith(bullets[i], "- ");
      assert got[i] == bullets[i][2..];
    }
    assert got == errors;
  }
}
