/**
 * The text `generateEndpointToolCode` writes (src/services/generateEndpointToolCode.ts):
 * `escapeString`, the definition and handler templates of
 * `generateToolDefinition` and `generateHandlerFunction`, and why the
 * validator accepts what they produce.
 */
module ToolTemplate {
  import opened Text
  import opened ValidateSchema

  // ---------------------------------------------------------------- escaping

  /** `s.replace(/c/g, rep)` for a one-character pattern. */
  function ReplaceAll(s: string, c: char, rep: string): string
  {
    if s == "" then "" else (if s[0] == c then rep else [s[0]]) + ReplaceAll(s[1..], c, rep)
  }

  /** `escapeString`: backslashes first, then double quotes, then newlines. */
  function EscapeString(s: string): string
  {
    ReplaceAll(ReplaceAll(ReplaceAll(s, '\\', "\\\\"), '"', "\\\""), '\n', "\\n")
  }

  /** The escape of one character. */
  function EscapeChar(c: char): string
  {
    if c == '\\' then "\\\\" else if c == '"' then "\\\"" else if c == '\n' then "\\n" else [c]
  }

  /** Escaping character by character, in one pass. */
  function EscapeChars(s: string): string
  {
    if s == "" then "" else EscapeChar(s[0]) + EscapeChars(s[1..])
  }

  /** Reading a string literal's body back: each backslash pair stands for one character. */
  function Unescape(t: string): string
  {
    if t == "" then ""
    else if t[0] == '\\' && |t| >= 2 then
      [if t[1] == 'n' then '\n' else t[1]] + Unescape(t[2..])
    else [t[0]] + Unescape(t[1..])
  }

  lemma {:induction false} ReplaceAllAppend(a: string, b: string, c: char, rep: string)
    ensures ReplaceAll(a + b, c, rep) == ReplaceAll(a, c, rep) + ReplaceAll(b, c, rep)
  {
    if a != "" {
      assert (a + b)[0] == a[0] && (a + b)[1..] == a[1..] + b;
      ReplaceAllAppend(a[1..], b, c, rep);
    } else {
      assert a + b == b;
    }
  }

  /** The three passes of `escapeString` do what one pass of `EscapeChar` does. */
  lemma {:induction false} EscapeOnePass(s: string)
    ensures EscapeString(s) == EscapeChars(s)
  {
    if s != "" {
      var c := s[0];
      assert s == [c] + s[1..];
      var p1 := ReplaceAll(s, '\\', "\\\\");
      ReplaceAllAppend([c], s[1..], '\\', "\\\\");
      var h1 := ReplaceAll([c], '\\', "\\\\");
      var t1 := ReplaceAll(s[1..], '\\', "\\\\");
      ReplaceAllAppend(h1, t1, '"', "\\\"");
      var h2 := ReplaceAll(h1, '"', "\\\"");
      var t2 := ReplaceAll(t1, '"', "\\\"");
      ReplaceAllAppend(h2, t2, '\n', "\\n");
      EscapeOnePass(s[1..]);
      EscapeCharPasses(c);
    }
  }

  /** The three passes on one character. */
  lemma EscapeCharPasses(c: char)
    ensures ReplaceAll(ReplaceAll(ReplaceAll([c], '\\', "\\\\"), '"', "\\\""), '\n', "\\n") == EscapeChar(c)
  {
    var h1 := ReplaceAll([c], '\\', "\\\\");
    assert ReplaceAll([c][1..], '\\', "\\\\") == "";
    if c == '\\' {
      assert h1 == "\\\\";
      assert ReplaceAll(h1, '"', "\\\"") == "\\\\" by {
        assert h1[1..] == "\\";
      }
      assert ReplaceAll("\\\\", '\n', "\\n") == "\\\\" by {
        assert "\\\\"[1..] == "\\";
      }
    } else if c == '"' {
      assert h1 == "\"";
      assert ReplaceAll(h1, '"', "\\\"") == "\\\"";
      assert ReplaceAll("\\\"", '\n', "\\n") == "\\\"" by {
        assert "\\\""[1..] == "\"";
      }
    } else if c == '\n' {
      assert h1 == "\n";
      assert ReplaceAll(h1, '"', "\\\"") == "\n";
    } else {
      assert h1 == [c];
      assert ReplaceAll(h1, '"', "\\\"") == [c];
    }
  }

  /** Unescaping the escaped text gives the text back. */
  lemma {:induction false} UnescapeEscape(s: string)
    ensures Unescape(EscapeChars(s)) == s
  {
    if s != "" {
      var e := EscapeChar(s[0]);
      var rest := EscapeChars(s[1..]);
      UnescapeEscape(s[1..]);
      if |e| == 2 {
        assert (e + rest)[0] == '\\' && (e + rest)[2..] == rest;
      } else {
        assert (e + rest)[0] == s[0] != '\\' && (e + rest)[1..] == rest;
      }
    }
  }

  /** The escaped text holds no raw newline and no double quote without a backslash before it. */
  lemma {:induction false} EscapedSafe(s: string)
    ensures '\n' !in EscapeChars(s)
    ensures forall i :: 0 <= i < |EscapeChars(s)| && EscapeChars(s)[i] == '"' ==> 0 < i && EscapeChars(s)[i - 1] == '\\'
  {
    if s != "" {
      EscapedSafe(s[1..]);
      var e := EscapeChar(s[0]);
      var rest := EscapeChars(s[1..]);
      assert EscapeChars(s) == e + rest;
      forall i | 0 <= i < |e + rest| && (e + rest)[i] == '"' ensures 0 < i && (e + rest)[i - 1] == '\\' {
        if i >= |e| {
          assert (e + rest)[i] == rest[i - |e|];
          if i - |e| > 0 {
            assert (e + rest)[i - 1] == rest[i - |e| - 1];
          } else {
            assert false;
          }
        }
      }
    }
  }

  /** `escapeString` round-trips and keeps the description on one line. */
  lemma EscapeStringRoundTrip(s: string)
    ensures Unescape(EscapeString(s)) == s
    ensures '\n' !in EscapeString(s)
  {
    EscapeOnePass(s);
    UnescapeEscape(s);
    EscapedSafe(s);
  }

  // ---------------------------------------------------------------- the templates

  /**
   * What the templates are filled with: the tool name, the endpoint's
   * summary and description as printed in the doc comment, the tool
   * description, the rendered input schema, and the method and path the
   * handler's comments name.
   */
  datatype ToolParts = ToolParts(
    toolName: string, summary: string, details: string, description: string,
    schemaText: string, m: string, path: string)

  /** The doc comment and the opening of the exported constant. */
  function DefinitionHead(p: ToolParts): string
  {
    "/**\n * " + p.summary + "\n * " + p.details + ExportConst + p.toolName + " = {\n"
  }

  function NameLine(toolName: string): string
  {
    "  name: \"" + toolName + "\",\n"
  }

  function DescriptionLine(description: string): string
  {
    "  description: \"" + EscapeString(description) + "\",\n"
  }

  function SchemaLine(schemaText: string): string
  {
    "  inputSchema: " + schemaText + "\n};"
  }

  /** `generateToolDefinition`. */
  function DefinitionText(p: ToolParts): string
  {
    DefinitionHead(p) + NameLine(p.toolName) + DescriptionLine(p.description) + SchemaLine(p.schemaText)
  }

  const ExportConst := "\n */\nexport const "
  const HandlerComment := "\n// Tool handler\n"
  const TodoComment := "  try {\n    // TODO: Implement API call to "
  const ApiClientComment := "\n    // const response = await apiClient."
  const HandlerBody :=
    "    \n"
    + "    return {\n"
    + "      content: [{\n"
    + "        type: \"text\",\n"
    + "        text: JSON.stringify({ success: true, message: \"Not implemented yet\" }, null, 2)\n"
    + "      }]\n"
    + "    };\n"
    + "  } catch (error: any) {\n"
    + "    return {\n"
    + "      content: [{\n"
    + "        type: \"text\",\n"
    + "        text: `Error: ${error.message}`\n"
    + "      }]\n"
    + "    };\n"
    + "  }\n"
    + "}"

  /** The comment and the declaration line that open `generateHandlerFunction`'s text. */
  function HandlerDecl(toolName: string): string
  {
    HandlerComment + HandlerPrefix + toolName + "(input: any) {\n"
  }

  /** The rest of the handler: the comments naming the call, and the stub body. */
  function HandlerRest(m: string, path: string): string
  {
    TodoComment + Upper(m) + " " + path + ApiClientComment + Lower(m) + "('" + path + "', input);\n" + HandlerBody
  }

  /** `generateHandlerFunction`. */
  function HandlerText(toolName: string, m: string, path: string): string
  {
    HandlerDecl(toolName) + HandlerRest(m, path)
  }

  /** The generated code: the definition, a blank line, the handler. */
  function CodeText(p: ToolParts): string
  {
    DefinitionText(p) + "\n\n" + HandlerText(p.toolName, p.m, p.path)
  }

  // ---------------------------------------------------------------- what the validator finds

  /** The `name:` line alone matches the name check when the name is non-empty and unquoted. */
  lemma NameLineMatch(t: string)
    requires t != "" && forall k :: 0 <= k < |t| ==> !IsQuote(t[k])
    ensures NameMatchAt(NameLine(t), 2)
  {
    var line := NameLine(t);
    var head := "  name: \"";
    assert line[..9] == head;
    assert line[2..7] == head[2..7] == "name:";
    assert line[7] == head[7] == ' ';
    assert line[8] == head[8] == '"';
    assert line[9 + |t|] == '"';
    forall n | 9 <= n < 9 + |t| ensures !IsQuote(line[n]) {
      assert line[n] == t[n - 9];
    }
    SkipSpacesAt(line, 7, 8);
    SkipUnquotedAt(line, 9, 9 + |t|);
  }

  /** The `inputSchema:` line alone matches the input-schema check when the rendered schema opens a brace. */
  lemma SchemaLineMatch(x: string)
    requires StartsWith(x, "{")
    ensures InputSchemaMatchAt(SchemaLine(x), 2)
  {
    var line := SchemaLine(x);
    var head := "  inputSchema: ";
    assert line[..15] == head;
    assert line[2..14] == head[2..14] == "inputSchema:";
    assert line[14] == head[14] == ' ';
    assert line[15] == x[0] == x[..1][0] == '{';
    SkipSpacesAt(line, 14, 15);
  }

  /** `type: 'object'`, the type an object schema is rendered with. */
  const ObjectType := "type:" + " " + "'" + "object" + "'"

  /** An occurrence of `type: 'object'` matches the type check. */
  lemma TypeTextMatch(x: string, i: int)
    requires OccursAt(x, ObjectType, i)
    ensures TypeMatchAt(x, i)
  {
    OccursSplit(x, "type:" + " " + "'" + "object", "'", i);
    OccursSplit(x, "type:" + " " + "'", "object", i);
    OccursSplit(x, "type:" + " ", "'", i);
    OccursSplit(x, "type:", " ", i);
    assert x[i + 5] == x[i + 5..i + 6][0];
    assert x[i + 6] == x[i + 6..i + 7][0];
    assert x[i + 13] == x[i + 13..i + 14][0];
    SkipSpacesAt(x, i + 5, i + 6);
  }

  /** The handler's declaration alone matches the handler check when the name starts with a word character. */
  lemma HandlerDeclMatch(t: string)
    requires t != "" && IsWordChar(t[0])
    ensures HandlerMatchAt(HandlerDecl(t), |HandlerComment|)
  {
    var d := HandlerDecl(t);
    var head := HandlerComment + HandlerPrefix;
    assert d[..|head|] == head;
    assert d[|HandlerComment|..|head|] == head[|HandlerComment|..] == HandlerPrefix;
    assert d[|head|] == t[0];
  }

  // Each check finds its match in one piece of the code; the match survives
  // the pieces around it.

  lemma NameChain(head: string, name: string, desc: string, line: string, handler: string)
    requires MatchAt(NameCheck, name, 2)
    ensures Passes(NameCheck, head + name + desc + line + "\n\n" + handler)
  {
    MatchAfter(NameCheck, head, name, 2);
    MatchBefore(NameCheck, head + name, desc, |head| + 2);
    MatchBefore(NameCheck, head + name + desc, line, |head| + 2);
    MatchBefore(NameCheck, head + name + desc + line, "\n\n", |head| + 2);
    MatchBefore(NameCheck, head + name + desc + line + "\n\n", handler, |head| + 2);
    MatchPasses(NameCheck, head + name + desc + line + "\n\n" + handler, |head| + 2);
  }

  lemma SchemaChain(before: string, line: string, handler: string, i: int)
    requires MatchAt(InputSchemaCheck, line, i)
    ensures Passes(InputSchemaCheck, before + line + "\n\n" + handler)
  {
    MatchAfter(InputSchemaCheck, before, line, i);
    MatchBefore(InputSchemaCheck, before + line, "\n\n", |before| + i);
    MatchBefore(InputSchemaCheck, before + line + "\n\n", handler, |before| + i);
    MatchPasses(InputSchemaCheck, before + line + "\n\n" + handler, |before| + i);
  }

  lemma TypeInLine(x: string, i: int)
    requires MatchAt(TypeCheck, x, i)
    ensures MatchAt(TypeCheck, SchemaLine(x), 15 + i)
  {
    MatchAfter(TypeCheck, "  inputSchema: ", x, i);
    MatchBefore(TypeCheck, "  inputSchema: " + x, "\n};", 15 + i);
  }

  lemma TypeChain(before: string, line: string, handler: string, i: int)
    requires MatchAt(TypeCheck, line, i)
    ensures Passes(TypeCheck, before + line + "\n\n" + handler)
  {
    MatchAfter(TypeCheck, before, line, i);
    MatchBefore(TypeCheck, before + line, "\n\n", |before| + i);
    MatchBefore(TypeCheck, before + line + "\n\n", handler, |before| + i);
    MatchPasses(TypeCheck, before + line + "\n\n" + handler, |before| + i);
  }

  lemma HandlerChain(before: string, decl: string, rest: string, i: int)
    requires MatchAt(HandlerCheck, decl, i)
    ensures Passes(HandlerCheck, before + (decl + rest))
  {
    MatchBefore(HandlerCheck, decl, rest, i);
    MatchAfter(HandlerCheck, before, decl + rest, i);
    MatchPasses(HandlerCheck, before + (decl + rest), |before| + i);
  }

  /** The four matches in the pieces of the code make every check pass. */
  lemma ChecksPass(head: string, name: string, desc: string, line: string, decl: string, rest: string, j: int)
    requires MatchAt(NameCheck, name, 2)
    requires MatchAt(InputSchemaCheck, line, 2)
    requires MatchAt(TypeCheck, line, j)
    requires MatchAt(HandlerCheck, decl, |HandlerComment|)
    ensures CheckErrors(head + name + desc + line + "\n\n" + (decl + rest)) == []
  {
    NameChain(head, name, desc, line, decl + rest);
    SchemaChain(head + name + desc, line, decl + rest, 2);
    TypeChain(head + name + desc, line, decl + rest, j);
    HandlerChain(head + name + desc + line + "\n\n", decl, rest, |HandlerComment|);
    AllPass(head + name + desc + line + "\n\n" + (decl + rest));
  }

  /**
   * The generated code passes all four checks when the tool name starts
   * with a word character and holds no quote, and the rendered schema is an
   * object literal with `type: 'object'`.
   */
  lemma GeneratedCodeValid(p: ToolParts)
    requires p.toolName != "" && IsWordChar(p.toolName[0]) && forall k :: 0 <= k < |p.toolName| ==> !IsQuote(p.toolName[k])
    requires StartsWith(p.schemaText, "{") && Contains(p.schemaText, ObjectType)
    ensures CheckErrors(CodeText(p)) == []
  {
    NameLineMatch(p.toolName);
    SchemaLineMatch(p.schemaText);
    var i :| 0 <= i <= |p.schemaText| - 14 && OccursAt(p.schemaText, ObjectType, i);
    TypeTextMatch(p.schemaText, i);
    TypeInLine(p.schemaText, i);
    HandlerDeclMatch(p.toolName);
    ChecksPass(DefinitionHead(p), NameLine(p.toolName), DescriptionLine(p.description), SchemaLine(p.schemaText),
      HandlerDecl(p.toolName), HandlerRest(p.m, p.path), 15 + i);
  }
}
