# Swagger-MCP generators, modelled in Dafny

Swagger-MCP reads a Swagger 2.0 / OpenAPI 3.x document and produces text from it. It does five things:

- it lists the document's endpoints;
- it lists the models an endpoint uses;
- it renders a model as a TypeScript interface;
- it generates the source code of an MCP tool for an endpoint;
- it checks that code against the MCP tool shape.

Every one of these is a function of a parsed JSON tree and a few strings. This project models them:

| file | module | source |
|---|---|---|
| `json.dfy` | `Json` | the parsed document (`Json`), JavaScript truthiness, `a \|\| b`, property reads and assignment, `String(v)` |
| `text.dfy` | `Text` | the JavaScript string methods the generators use: `toLowerCase`, `split`, `join`, `replace`, `substring` |
| `errors.dfy` | `Errors` | `flattenErrors`, `swaggerErrorMessage` (src/utils/errors.ts) |
| `list_endpoints.dfy` | `ListEndpoints` | `listEndpoints` (src/services/listEndpoints.ts) |
| `validate_schema.dfy` | `ValidateSchema` | `validateMCPSchema`, `formatValidationErrors` (src/utils/validateMCPSchema.ts) |
| `tool_name.dfy` | `ToolNaming` | `generateToolName` |
| `schema_mapper.dfy` | `SchemaMapper` | `processSchema`, `extractModelSchema`, `isLikelyUnmarshaler`, `processUnmarshalerType`, `mapSwaggerTypeToJsonSchema` |
| `endpoint_tool.dfy` | `EndpointTool` | `findEndpoint`, `generateInputSchema` |
| `tool_template.dfy` | `ToolTemplate` | `escapeString`, the definition and handler templates |
| `tool_code.dfy` | `ToolCode` | the description of `generateToolDefinition`, `generateEndpointToolCode` |
| `model_code.dfy` | `ModelCode` | src/services/generateModelCode.ts |
| `endpoint_models.dfy` | `EndpointModels` | src/services/listEndpointModels.ts |

The last five modules without a path in that table all model src/services/generateEndpointToolCode.ts.

## How the model is built

**Documents.** A document is a `Json` value.
- An object keeps its entries as a sequence, in the order `for...in` and `Object.entries` visit them. The order shows up in every generated text.
- Numbers are integers.
- `None` stands for `undefined`.

**Files.** The file system is a `map<string, Json>` from the paths of existing files to their parsed content. `fs.existsSync` becomes membership in the map. Reading and parsing become the map lookup.

**Errors.** A thrown error is `Err(message)`, with the message JavaScript would produce. A property read on `null` gives ``Cannot read properties of null (reading 'x')``. A builtin called on the wrong kind of value gives `… is not a function` or `… is not iterable`.

**Methods and specification functions.** Loops and state that changes in the source are Dafny methods. Each method is proved equal to a specification function, and the properties are lemmas about those functions:
- `FlattenErrors`, `CollectEndpoints`, `ValidateMCPSchema`, `GenerateToolName`, `ProcessSchema` and `GenerateInputSchema` against their functions;
- `GenerateTypeScriptInterface` against `InterfaceText`;
- the `ModelCollector` class of `EndpointModels`. Its `models` list and `processedRefs` set are the `models` array and `processedRefs` Set that `extractReferencedModels` mutates. Every method of the class keeps the invariant that `models` lists, without duplicates, the resolved models of the references in the order they were first met, and that `processedRefs` is the set of those references.

## Model

| member | source | states |
|---|---|---|
| Text.Lower | src/services/generateEndpointToolCode.ts:105 | `toLowerCase` keeps the length and lowers each character |
| Text.Upper | src/services/listEndpoints.ts:56 | `toUpperCase` keeps the length and raises each character |
| Text.Capitalize | src/services/generateEndpointToolCode.ts:200 | `charAt(0).toUpperCase() + slice(1)`: same length; the first character is the upper-cased first character of the input, so no lower-case letter, and the rest is unchanged |
| Text.IndexOf | src/services/generateModelCode.ts:113-116 | the position of the first occurrence of a pattern, and -1 exactly when there is none |
| Text.ReplaceFirstSpec | src/services/generateModelCode.ts:113-116 | `replace` with a string pattern changes only the earliest occurrence, and nothing when the pattern is absent |
| Text.Split | src/services/listEndpointModels.ts:123 | `split` yields at least one piece and no piece holds the separator |
| Text.JoinSplit | src/services/listEndpointModels.ts:165 | joining the pieces of a split with the separator restores the string |
| Text.SplitJoin | src/services/listEndpointModels.ts:165 | splitting separator-free pieces joined by the separator gives the pieces back |
| Text.LastSegmentSplit | src/services/listEndpointModels.ts:123-124 | the model name is the last piece of `ref.split('/')` |
| Text.LastSegmentAfter | src/services/generateModelCode.ts:248-251 | the name of `a/b`, where `b` has no slash, is `b` |
| Text.LastSegmentSuffix | src/services/generateEndpointToolCode.ts:295 | `split('/').pop()` is a suffix of the reference, preceded by a slash when the reference has one |
| Text.Take | src/services/generateEndpointToolCode.ts:150 | `substring(0, n)` is a prefix of at most `n` characters, the whole string when it is short enough and exactly `n` otherwise |
| Text.Repeat | src/services/generateModelCode.ts:71 | `'  '.repeat(n)` has `n` times the length |
| Text.RemoveChar | src/services/generateEndpointToolCode.ts:291 | `replace(/\./g, '')` leaves no dot, never lengthens, and changes nothing without a dot; `RemoveCharOne` and `RemoveCharAppend` show every other character is kept, in order |
| Text.RemoveCharOne | src/services/generateEndpointToolCode.ts:291 | one character is removed exactly when it is the dot, and kept otherwise |
| Text.RemoveCharAppend | src/services/generateEndpointToolCode.ts:291 | the removal distributes over concatenation, so the characters that are not dots keep their order |
| Text.NatToString | src/services/listEndpointModels.ts:173 | the index name of an array element or string character is a non-empty digit string, without a leading zero unless it is `0`, whose decimal value is the index |
| Text.NatToStringInjective | src/services/listEndpointModels.ts:173 | distinct indices have distinct names |
| Json.Get | src/services/listEndpoints.ts:42 | a property read of an object yields a value strictly inside it (so every walk over a document terminates) |
| Json.Entries | src/services/listEndpoints.ts:47-50 | `for...in` visits an object's entries in order and an array's elements by index, and nothing of a scalar |
| Json.RefOf | src/services/generateEndpointToolCode.ts:385 | a truthy string `$ref` is never empty |
| Json.Put | src/services/generateEndpointToolCode.ts:262 | after `obj[key] = v` the key reads `v`; an existing key keeps its place, a new one is appended |
| Json.PutOther | src/services/generateEndpointToolCode.ts:262 | assigning one key leaves every other key's value unchanged |
| Json.PutNew | src/services/generateEndpointToolCode.ts:274 | assigning a key the object lacks appends it at the end |
| Errors.Members | src/utils/errors.ts:25-26 | the values a `for...in` loop reads are strictly inside the value |
| Errors.Flatten | src/utils/errors.ts:10-45 | every message found is a string or another truthy value, and is the error itself or part of it |
| Errors.FlattenEach | src/utils/errors.ts:12 | `flatMap(flattenErrors)` yields only strings and truthy values taken from the list |
| Errors.FlattenObjects | src/utils/errors.ts:25-31 | the `data` loop yields only messages taken from its object-valued entries |
| Errors.FlattenEachAppend | src/utils/errors.ts:12 | flattening a concatenated list is the concatenation of the two flattenings |
| Errors.FlattenObjectsAppend | src/utils/errors.ts:25-31 | the `data` loop over two runs of entries concatenates their messages |
| Errors.FlattenArrayConcat | src/utils/errors.ts:11-12 | an array flattens to its halves' messages in order |
| Errors.FlattenSingleton | src/utils/errors.ts:11-12 | a one-element array flattens like its element |
| Errors.FlattenScalars | src/utils/errors.ts:40-44 | a string is its own message; numbers, booleans and `null` carry none |
| Errors.MessageFirst | src/utils/errors.ts:17-19 | a truthy `message` comes first, followed by the messages of `data`, and of nothing when `data` is falsy |
| Errors.ObjectCases | src/utils/errors.ts:22-39 | an object without a truthy `message` gives the messages of its `data` loop when there are any, and otherwise the messages of all its values; without a truthy `data`, the values' messages |
| Errors.ValuesFallback | src/utils/errors.ts:38-39 | in that fallback the values are flattened in key order: the messages of an object split in two are those of the first part followed by those of the second |
| Errors.FlattenErrors | src/utils/errors.ts:10-45 | the method with its loops computes `Flatten` |
| Errors.FlattenAll | src/utils/errors.ts:12 | the `flatMap` loop computes `FlattenEach` |
| Errors.FlattenData | src/utils/errors.ts:22-35 | the `data` loop computes `FlattenObjects` |
| Errors.MessageTexts | src/utils/errors.ts:53 | `join` writes each message as `String(m)`, with `null` as empty |
| Errors.SwaggerErrorMessage | src/utils/errors.ts:51-54 | no messages give "Unknown error occurred"; otherwise the messages joined by newlines |
| Errors.MessageLines | src/utils/errors.ts:53 | when no message spans lines, the lines of the error text are exactly the messages |
| Errors.UnknownOnlyWhenEmpty | src/utils/errors.ts:53 | the fallback text appears exactly when there is no message, or when the only message is that text |
| Errors.JoinIsText | src/utils/errors.ts:53 | newline-free lines join to a newline-free text only when they are that one line |
| ListEndpoints.Then | src/services/listEndpoints.ts:47-64 | two runs succeed exactly when both succeed, the first error wins, and successes concatenate |
| ListEndpoints.CollectEndpoints | src/services/listEndpoints.ts:42-64 | the nested loops compute `AllEndpoints` over `paths \|\| {}` |
| ListEndpoints.ListEndpoints | src/services/listEndpoints.ts:24-70 | an empty path and a missing file fail with their messages; a `null` document fails on reading `openapi`; otherwise the endpoints, or the error prefixed with "Error listing endpoints: " |
| ListEndpoints.PathEndpointsMembers | src/services/listEndpoints.ts:50-62 | on success, no verb key holds `null`, and the endpoints are those of the verb keys, one each, in the keys' order |
| ListEndpoints.VerbFields | src/services/listEndpoints.ts:50-51 | the entries of a path item whose key is one of the seven verbs, and only those |
| ListEndpoints.AllEndpointsMembers | src/services/listEndpoints.ts:47-64 | on success, the endpoints are exactly those of the paths |
| ListEndpoints.AllEndpointsErr | src/services/listEndpoints.ts:57 | the listing fails exactly when some path item fails, and then with the `null` operation read |
| ListEndpoints.PathErrIsNull | src/services/listEndpoints.ts:57 | a path item fails only with the property read on a `null` operation |
| ListEndpoints.PathEndpointsErr | src/services/listEndpoints.ts:51-57 | a path item fails exactly when one of its verb keys holds `null` |
| ListEndpoints.UpperVerbs | src/services/listEndpoints.ts:51-56 | the seven verbs upper-case to GET, POST, PUT, DELETE, PATCH, OPTIONS and HEAD |
| ListEndpoints.ListedMethods | src/services/listEndpoints.ts:51-56 | every listed endpoint carries its path and an upper-case verb of the seven |
| ListEndpoints.NoPaths | src/services/listEndpoints.ts:42 | a document without `paths` lists no endpoint |
| ListEndpoints.AllEndpointsAppend | src/services/listEndpoints.ts:47 | the endpoints of two runs of paths are listed in document order |
| ValidateSchema.SkipSpaces | src/utils/validateMCPSchema.ts:16 | `\s*` stops at the first non-space |
| ValidateSchema.SkipUnquoted | src/utils/validateMCPSchema.ts:16 | `[^"']+` runs to the first quote |
| ValidateSchema.MessageInjective | src/utils/validateMCPSchema.ts:15-55 | the four checks report four different messages |
| ValidateSchema.ValidateMCPSchema | src/utils/validateMCPSchema.ts:11-67 | the errors are the messages of the failed checks, and the code is valid exactly when there are none |
| ValidateSchema.RunCheck | src/utils/validateMCPSchema.ts:15-55 | one check appends its message exactly when its pattern is absent |
| ValidateSchema.FailedChecks | src/utils/validateMCPSchema.ts:15-55 | a check is listed exactly when it fails, in the order the source runs them |
| ValidateSchema.CheckErrors | src/utils/validateMCPSchema.ts:13-55 | at most four errors, one per failed check, in order |
| ValidateSchema.AllPass | src/utils/validateMCPSchema.ts:57-60 | code that matches all four patterns has no error |
| ValidateSchema.ErrorReported | src/utils/validateMCPSchema.ts:15-55 | a check's message is reported exactly when its pattern does not match |
| ValidateSchema.MatchPasses | src/utils/validateMCPSchema.ts:16-52 | a pattern matched at any position passes its check |
| ValidateSchema.MatchAfter | src/utils/validateMCPSchema.ts:16-52 | a match survives text put before it |
| ValidateSchema.MatchBefore | src/utils/validateMCPSchema.ts:16-52 | a match survives text put after it |
| ValidateSchema.Bullets | src/utils/validateMCPSchema.ts:82 | each error becomes one line `- error` |
| ValidateSchema.ReportRoundTrip | src/utils/validateMCPSchema.ts:74-87 | the report starts and ends with the fixed text, and the errors can be read back from it |
| ToolNaming.TrailingName | src/services/generateEndpointToolCode.ts:186 | the run of characters after the last `/` or `.` |
| ToolNaming.StripExtension | src/services/generateEndpointToolCode.ts:186 | `replace(/\.[^/.]+$/, '')` cuts the path before a final extension and changes nothing without one |
| ToolNaming.StripQuery | src/services/generateEndpointToolCode.ts:186 | `split('?')[0]` is a prefix without a `?` |
| ToolNaming.Segments | src/services/generateEndpointToolCode.ts:187 | the segments are non-empty and slash-free |
| ToolNaming.NonEmpty | src/services/generateEndpointToolCode.ts:213 | `filter(Boolean)` keeps only non-empty segments, each one of the input |
| ToolNaming.Singular | src/services/generateEndpointToolCode.ts:204-208 | singularising a word ending in `s` shortens it |
| ToolNaming.ProcessSegment | src/services/generateEndpointToolCode.ts:189-212 | dropped segments become empty, `{x}` becomes `x` capitalised, and no result starts with a lower-case letter |
| ToolNaming.MapSegments | src/services/generateEndpointToolCode.ts:189-213 | each segment is processed with whether it is the last of the unfiltered list |
| ToolNaming.ProcessedSegments | src/services/generateEndpointToolCode.ts:186-213 | every processed segment is non-empty and does not start with a lower-case letter |
| ToolNaming.Fit | src/services/generateEndpointToolCode.ts:224-232 | the shortened name extends the short prefix and stays within 64 when the prefix does |
| ToolNaming.GenerateToolName | src/services/generateEndpointToolCode.ts:124-236 | the method computes `ToolName` |
| ToolNaming.Append | src/services/generateEndpointToolCode.ts:216-219 | the loop appends all segments to the prefix |
| ToolNaming.Shorten | src/services/generateEndpointToolCode.ts:224-232 | the loop with `break` computes `Fit` |
| ToolNaming.OperationIdWins | src/services/generateEndpointToolCode.ts:149-151 | an operationId without `_` or `.` gives its first 64 characters, whatever the method, path and options |
| ToolNaming.NameLength | src/services/generateEndpointToolCode.ts:222-235 | the name is at most 64 characters whenever the method's short prefix is |
| ToolNaming.FitMaximal | src/services/generateEndpointToolCode.ts:225-231 | the shortened name is the prefix plus the longest run of leading segments whose every step fits in 64 |
| ToolNaming.FitIsPrefix | src/services/generateEndpointToolCode.ts:225-231 | the shortened name is the prefix plus the first `FitCount` segments |
| ToolNaming.FitStops | src/services/generateEndpointToolCode.ts:226-229 | the first segment left out would have made the name longer than 64 |
| ToolNaming.FitPrefixesFit | src/services/generateEndpointToolCode.ts:226-227 | every intermediate name of the loop fits in 64 |
| ToolNaming.ApiDropped | src/services/generateEndpointToolCode.ts:190-192 | an `api` segment in any case is dropped unless included |
| ToolNaming.VersionDropped | src/services/generateEndpointToolCode.ts:194-196 | a `v<digits>` segment is dropped unless included |
| ToolNaming.PlaceholderKept | src/services/generateEndpointToolCode.ts:198-201 | `{name}` becomes `name` capitalised |
| ToolNaming.TrailingNameAfterSlash | src/services/generateEndpointToolCode.ts:186 | a last segment without a dot has no extension |
| ToolNaming.NoExtension | src/services/generateEndpointToolCode.ts:186 | such a path is not changed by the extension rule |
| ToolNaming.NoQuery | src/services/generateEndpointToolCode.ts:186 | a path without `?` is not changed by the query rule |
| ToolNaming.TwoSegments | src/services/generateEndpointToolCode.ts:186-187 | `/a/b` has the segments `a` and `b` |
| ToolNaming.SplitTwo | src/services/generateEndpointToolCode.ts:187 | `/a/b` splits into an empty piece, `a` and `b` |
| ToolNaming.OneSegment | src/services/generateEndpointToolCode.ts:186-187 | `/b` has the one segment `b` |
| ToolNaming.PlainWord | src/services/generateEndpointToolCode.ts:203-212 | a plain lower-case word is singularised, abbreviated and capitalised |
| ToolNaming.OrgSegment | src/services/generateEndpointToolCode.ts:204-212 | a last segment `organizations` becomes `Org`: singularised first, then abbreviated |
| ToolNaming.GetPrefix | src/services/generateEndpointToolCode.ts:132-138 | GET has the prefix `get` |
| ToolNaming.UnshortenedName | src/services/generateEndpointToolCode.ts:216-235 | a name within 64 is the prefix followed by all processed segments |
| ToolNaming.OrgPath | src/services/generateEndpointToolCode.ts:186-213 | `/v3/organizations` has the one processed segment `Org` |
| ToolNaming.OrgMapped | src/services/generateEndpointToolCode.ts:189-213 | the version segment is dropped and `organizations` gives `Org` |
| ToolNamingExamples.GetOrganizations | src/services/generateEndpointToolCode.ts:124-236 | GET `/v3/organizations` is named `getOrg` |
| ToolNaming.ConstructorWord | src/services/generateEndpointToolCode.ts:210-212 | `constructors` gives `Constructor` in the corrected lookup and an error in the lookup as written |
| ToolNaming.MapSegmentsAgree | src/services/generateEndpointToolCode.ts:189-213 | whenever the lookup as written does not throw, it agrees with the corrected lookup |
| ToolNaming.AsWrittenAgrees | src/services/generateEndpointToolCode.ts:124-236 | whenever the name as written does not throw, it is the corrected name |
| ToolNaming.ConstructorMapped | src/services/generateEndpointToolCode.ts:210-212 | the segment list `constructors` throws as written and gives `Constructor` when corrected |
| ToolNamingExamples.ConstructorThrows | src/services/generateEndpointToolCode.ts:210-212 | GET `/constructors` throws as written |
| ToolNamingExamples.ConstructorSegment | src/services/generateEndpointToolCode.ts:124-236 | GET `/constructors` is named `getConstructor` by the corrected lookup |
| SchemaMapper.FindModel | src/services/generateEndpointToolCode.ts:364-366 | a truthy `definitions` entry wins; otherwise a truthy `components.schemas` entry; no model exactly when neither is truthy |
| SchemaMapper.MapType | src/services/generateEndpointToolCode.ts:619-631 | a table type maps by the table, any other type maps to `string`, and the result is one of six JSON Schema types |
| SchemaMapper.Inferred | src/services/generateEndpointToolCode.ts:526-576 | the node inferred from a missing model's name: a date or time name is a `string` with format `date-time` or `date`; otherwise a numeric name is `number` or `integer`; otherwise `Bool` gives `boolean`; otherwise a slice, array or list name is an array of `string` items; otherwise a plain `string`; the description always starts with the not-found text |
| SchemaMapper.ItemTypeString | src/services/generateEndpointToolCode.ts:555-562 | a name that reaches the array rule has no numeric or `Bool` marker, so its item type is always `string` |
| SchemaMapper.Unwrapped | src/services/generateEndpointToolCode.ts:578-611 | a model with a `value` property gives a node of one of the six kinds; any other model gives `type: model.type \|\| 'object'` and `description: model.description \|\| "Model 'X'"` |
| SchemaMapper.ProcessUnmarshalerType | src/services/generateEndpointToolCode.ts:498-612 | the three nullable names are decided first, whether or not the model exists (`NullableDate`, then `NullableInt64Slice`/`NullableIntSlice`, then `NullableTaskPriority`); any other name is inferred when the model is missing and unwrapped when found; the node's type is a kind or the found model's own `type` |
| SchemaMapper.NullableDescriptions | src/services/generateEndpointToolCode.ts:502-524 | each nullable node ends with the model's description, or the rule's default text when the model has none |
| SchemaMapper.Walk | src/services/generateEndpointToolCode.ts:379-445 | every processed node starts with its `type`, which is one of the six kinds or the `type` of a model of the document, and the walk has a positive call depth |
| SchemaMapper.WalkRef | src/services/generateEndpointToolCode.ts:385-394 | the `$ref` branch yields a node of a kind or of a model's own `type` |
| SchemaMapper.WalkModel | src/services/generateEndpointToolCode.ts:364-371 | a missing model gives the `Model 'X' not found` node; any node is of a kind or of a model's own `type` |
| SchemaMapper.WalkProps | src/services/generateEndpointToolCode.ts:418-422 | the properties loop builds an object; its keys are stated by `PropsInOrder` and its values by `PropsValues` |
| SchemaMapper.MapSchema | src/services/generateEndpointToolCode.ts:379-445 | `processSchema` of a top-level schema yields a node whose `type` is one of the six kinds or the `type` of a model of the document |
| SchemaMapper.KindsWhenModelsTyped | src/services/generateEndpointToolCode.ts:379-445 | when every model's `type` is one of the six kinds, so is the mapped node's |
| SchemaMapper.ModelTypeLeaks | src/services/generateEndpointToolCode.ts:608-611 | a `$ref` to a found wrapper model `Timestamp` without `value` copies the model's own `type`, so `type: 'file'` reaches the result unmapped |
| SchemaMapper.ExtractModel | src/services/generateEndpointToolCode.ts:364-371 | `extractModelSchema` yields a node of a kind or of a model's own `type` |
| SchemaMapper.ProcessSchema | src/services/generateEndpointToolCode.ts:379-445 | the method, with the properties loop inside it, computes `Walk` |
| SchemaMapper.ProcessProperties | src/services/generateEndpointToolCode.ts:418-422 | the loop computes the properties of `WalkProps` |
| SchemaMapper.ProcessEntry | src/services/generateEndpointToolCode.ts:419-420 | one property is processed as `Walk` does |
| SchemaMapper.ExtractModelSchema | src/services/generateEndpointToolCode.ts:364-371 | the method computes `WalkModel` |
| SchemaMapper.WalkOfRef | src/services/generateEndpointToolCode.ts:385-394 | a schema with `$ref` is processed as the referenced name |
| SchemaMapper.RefIgnoresSiblings | src/services/generateEndpointToolCode.ts:385-394 | the siblings of a `$ref` do not change the result |
| SchemaMapper.MissingModel | src/services/generateEndpointToolCode.ts:385-394 | a missing model whose name has a special marker is inferred; otherwise it is the not-found node |
| SchemaMapper.FoundModelExpanded | src/services/generateEndpointToolCode.ts:389-393 | a found model that is no wrapper is expanded with its own name being visited |
| SchemaMapper.DateTimeNameIsWrapper | src/services/generateEndpointToolCode.ts:468-472 | a date or time name is a wrapper whether or not the model exists |
| SchemaMapper.ArrayBeforeObject | src/services/generateEndpointToolCode.ts:397-403 | an array with items becomes an array node of the processed items, before the object rule |
| SchemaMapper.ObjectRequired | src/services/generateEndpointToolCode.ts:406-411 | an object node has type `object` and `required` defaulting to `[]` |
| SchemaMapper.ObjectNodeFields | src/services/generateEndpointToolCode.ts:407-411 | the object node's `type` and `required` fields |
| SchemaMapper.PrimitiveType | src/services/generateEndpointToolCode.ts:428-444 | any other schema becomes a primitive of the mapped type |
| SchemaMapper.StringEntry | src/services/generateEndpointToolCode.ts:419-420 | an entry of a string is a leaf |
| SchemaMapper.PropsInOrder | src/services/generateEndpointToolCode.ts:418-422 | the processed properties keep the keys in their order |
| SchemaMapper.PropsValues | src/services/generateEndpointToolCode.ts:418-422 | each property's value is its own schema processed by `processSchema` |
| SchemaMapper.NumericBeforeArray | src/services/generateEndpointToolCode.ts:534-548 | a missing `Int`/`Float`/`Number` name without date or time is numeric, before the array rule |
| SchemaMapper.Int64SliceIsInteger | src/services/generateEndpointToolCode.ts:502-576 | a missing `Int64Slice` becomes `integer`, not an array |
| SchemaMapper.ValueDescription | src/services/generateEndpointToolCode.ts:579-602 | a `value` wrapper has the value's mapped type, and the model's description followed by the value's in parentheses |
| SchemaMapper.WalkAgrees | src/services/generateEndpointToolCode.ts:379-445 | where the corrected walk cuts no cycle, the recursion as written ends within its depth on the same node |
| SchemaMapper.WalkModelAgrees | src/services/generateEndpointToolCode.ts:364-371 | the same for `extractModelSchema` |
| SchemaMapper.WalkPropsAgrees | src/services/generateEndpointToolCode.ts:418-422 | the same for the properties loop |
| SchemaMapper.SelfReferenceDiverges | src/services/generateEndpointToolCode.ts:385-393 | a model whose schema refers to itself never finishes as written, for any fuel |
| SchemaMapper.SelfReferenceCut | src/services/generateEndpointToolCode.ts:364-371 | the corrected walk gives the recursive-reference node for it |
| SchemaMapper.LoopDocDiverges | src/services/generateEndpointToolCode.ts:364-393 | the model `Node` with `$ref: '#/definitions/Node'` diverges as written and is cut when corrected |
| EndpointTool.FindEndpoint | src/services/generateEndpointToolCode.ts:97-112 | a missing path and a missing method fail with messages naming them; the operation is read with the lower-cased method and is truthy |
| EndpointTool.MethodCaseInsensitive | src/services/generateEndpointToolCode.ts:105 | methods equal up to case find the same operation, and fail alike naming each method |
| EndpointTool.BodyNode | src/services/generateEndpointToolCode.ts:293-311 | a body schema node exists exactly when there is a schema, and carries the description |
| EndpointTool.TypedSlot | src/services/generateEndpointToolCode.ts:261-286 | a path or query parameter gives a typed property under its name, and is required exactly when the parameter is |
| EndpointTool.BodySlot | src/services/generateEndpointToolCode.ts:289-316 | a body parameter gives its schema under its name without dots, and is required exactly when the parameter is |
| EndpointTool.ParamSlot | src/services/generateEndpointToolCode.ts:254-316 | header and formData parameters give nothing; a property comes only from path, query or body; body keys have no dots; a `null` parameter throws |
| EndpointTool.ParametersOf | src/services/generateEndpointToolCode.ts:253-254 | an array of parameters is visited element by element |
| EndpointTool.Chars | src/services/generateEndpointToolCode.ts:254 | `for...of` over a string visits its characters |
| EndpointTool.RequestBodySlot | src/services/generateEndpointToolCode.ts:321-353 | the request body becomes the property `requestBody` with a schema |
| EndpointTool.GenerateInputSchema | src/services/generateEndpointToolCode.ts:245-356 | the method computes `InputSchema` |
| EndpointTool.RequiredInOrder | src/services/generateEndpointToolCode.ts:267-315 | `required` lists the required parameters in parameter order |
| EndpointTool.InputSchemaRequired | src/services/generateEndpointToolCode.ts:245-356 | the schema's `required` is the required parameters in order, followed by `requestBody` exactly when the request body has a JSON schema and is required |
| EndpointTool.SlotRequired | src/services/generateEndpointToolCode.ts:267-315 | each parameter adds its own required entry at the end |
| EndpointTool.WithoutSkipped | src/services/generateEndpointToolCode.ts:256-258 | the list without header and formData parameters holds none |
| EndpointTool.SkippedIgnored | src/services/generateEndpointToolCode.ts:256-258 | leaving header and formData parameters out changes nothing |
| EndpointTool.EnumOnlyForQuery | src/services/generateEndpointToolCode.ts:261-282 | path and query properties have the mapped type, and only query ones carry `enum` |
| EndpointTool.BodyWithoutSchema | src/services/generateEndpointToolCode.ts:289-315 | a required body parameter without a schema has no property but is still required |
| EndpointTool.BodyRefExpandsModel | src/services/generateEndpointToolCode.ts:293-304 | a top-level body `$ref` is expanded as a model, bypassing the wrapper check |
| EndpointTool.NestedRefUsesWrapper | src/services/generateEndpointToolCode.ts:385-391 | a nested `$ref` to a wrapper name uses the wrapper node |
| EndpointTool.RequestBodyOnlyJson | src/services/generateEndpointToolCode.ts:321-325 | the request body counts exactly when its `application/json` content has a schema |
| EndpointTool.PropertyKeys | src/services/generateEndpointToolCode.ts:262-307 | the properties are keyed exactly by the names the parameters contribute |
| EndpointTool.SlotKey | src/services/generateEndpointToolCode.ts:262-307 | one parameter adds at most its own key |
| EndpointTool.SlotKeyOf | src/services/generateEndpointToolCode.ts:262-307 | a parameter contributes a key exactly when it produces a property, under that key |
| ToolTemplate.ReplaceAllAppend | src/services/generateEndpointToolCode.ts:733-735 | a global replacement distributes over concatenation |
| ToolTemplate.EscapeOnePass | src/services/generateEndpointToolCode.ts:731-736 | the three replacements in order escape each character on its own |
| ToolTemplate.EscapeCharPasses | src/services/generateEndpointToolCode.ts:731-736 | backslash, quote and newline get their escapes; other characters stay |
| ToolTemplate.UnescapeEscape | src/services/generateEndpointToolCode.ts:731-736 | unescaping the escaped text restores it |
| ToolTemplate.EscapedSafe | src/services/generateEndpointToolCode.ts:731-736 | the escaped text has no newline and every quote is preceded by a backslash |
| ToolTemplate.EscapeStringRoundTrip | src/services/generateEndpointToolCode.ts:731-736 | `escapeString` can be undone and leaves no raw newline |
| ToolTemplate.NameLineMatch | src/services/generateEndpointToolCode.ts:688 | the `name:` line matches the name pattern for a quote-free name |
| ToolTemplate.SchemaLineMatch | src/services/generateEndpointToolCode.ts:690 | the `inputSchema:` line matches its pattern |
| ToolTemplate.TypeTextMatch | src/services/generateEndpointToolCode.ts:678-680 | the rendered `type: 'object'` matches the type pattern |
| ToolTemplate.HandlerDeclMatch | src/services/generateEndpointToolCode.ts:704 | the handler declaration matches the handler pattern |
| ToolTemplate.ChecksPass | src/utils/validateMCPSchema.ts:15-55 | text holding the four matches in order has no validation error |
| ToolTemplate.GeneratedCodeValid | src/services/generateEndpointToolCode.ts:683-723 | the generated definition and handler pass validation whenever the name is a quote-free word and the rendered schema is an object |
| ToolCode.RequiredParamNames | src/services/generateEndpointToolCode.ts:657-659 | the required names are at most the parameters, and the filter throws exactly on a `null` parameter |
| ToolCode.RequiredNamesOne | src/services/generateEndpointToolCode.ts:657-659 | one parameter gives its name exactly when its `required` is truthy, nothing otherwise, and a `null` one fails on reading `required` |
| ToolCode.RequiredNamesAppend | src/services/generateEndpointToolCode.ts:657-659 | the names of two runs of parameters are the first run's followed by the second's, the first failure winning; so the names are the required parameters' names in parameter order |
| ToolCode.ToolDescription | src/services/generateEndpointToolCode.ts:640-675 | a non-string verb throws on `toLowerCase`, and a failing parameter sentence fails the description |
| ToolCode.InstructedShape | src/services/generateEndpointToolCode.ts:653-669 | the instructions start with the fixed text and end with the parameter and response sentences |
| ToolCode.DescribedShape | src/services/generateEndpointToolCode.ts:671-675 | the user text, when present, comes first and is followed by a space |
| ToolCode.DescriptionShape | src/services/generateEndpointToolCode.ts:640-675 | the description is the summary and description, then the instructions, ending with the two sentences |
| ToolCode.ToolCodeFor | src/services/generateEndpointToolCode.ts:56-87 | a failed lookup or generation fails with "Error generating endpoint tool code: " and the cause; otherwise the code |
| ToolCode.EndpointToolCode | src/services/generateEndpointToolCode.ts:62-84 | the method computes `EndpointCode` |
| ToolCode.ValidatedCode | src/services/generateEndpointToolCode.ts:77-84 | valid code is returned as is, and invalid code is replaced by the report |
| ToolCode.GenerateEndpointToolCode | src/services/generateEndpointToolCode.ts:26-88 | an empty path and a missing file fail with their messages; otherwise the tool code of the document |
| ToolCode.CodeReturned | src/services/generateEndpointToolCode.ts:56-84 | for a well-formed name and schema the templates pass validation and the generated code itself is returned |
| ModelCode.WordChars | src/services/generateModelCode.ts:258 | `replace(/[^\w]/g, '')` keeps only word characters, and changes nothing made only of them |
| ModelCode.WordCharsOne | src/services/generateModelCode.ts:258 | one character is kept exactly when it is a word character |
| ModelCode.WordCharsAppend | src/services/generateModelCode.ts:258 | the filter of a concatenation is the concatenation of the filters, so the kept characters stay in order |
| ModelCode.FormatInterfaceName | src/services/generateModelCode.ts:256-264 | the name has only word characters and does not start with a lower-case letter |
| ModelCode.FormatIdempotent | src/services/generateModelCode.ts:256-264 | formatting a formatted name changes nothing |
| ModelCode.RefModelNameAfterSlash | src/services/generateModelCode.ts:248-251 | the model name is the slash-free end of the reference, after its last slash |
| ModelCode.Around | src/services/generateModelCode.ts:229-236 | a nested type is wrapped in its text, and its error passes through |
| ModelCode.ScalarTypes | src/services/generateModelCode.ts:212-225 | `string`, `integer`, `number` and `boolean` map to `string`, `number`, `number` and `boolean` |
| ModelCode.UntypedContainers | src/services/generateModelCode.ts:227-241 | an array without items is `any[]`, an object without additional properties is `Record<string, any>`, other types are `any` |
| ModelCode.RefTakesPrecedence | src/services/generateModelCode.ts:207-210 | with a `$ref` the `type` does not matter |
| ModelCode.EnumInOrder | src/services/generateModelCode.ts:213-217 | a string enum is the union of its quoted values in order |
| ModelCode.ArrayOfItems | src/services/generateModelCode.ts:227-231 | an array with items is the items' type followed by `[]` |
| ModelCode.DictionaryOfValues | src/services/generateModelCode.ts:233-237 | an object with truthy `additionalProperties` is `Record<string, T>` for their type `T`, or fails with its error |
| ModelCode.MembersInOrder | src/services/generateModelCode.ts:85-103 | one member per property in order, optional exactly when not required, with the property's type |
| ModelCode.LaterRefIgnored | src/services/generateModelCode.ts:111-116 | once the plain header is gone, a later `allOf` reference changes nothing |
| ModelCode.FirstRefExtends | src/services/generateModelCode.ts:111-116 | the first `allOf` reference turns the header into `extends` that model |
| ModelCode.UnionMembers | src/services/generateModelCode.ts:142-149 | one alternative per member, in order |
| ModelCode.PropEntries | src/services/generateModelCode.ts:86 | the properties iterated are strictly inside the schema, or are strings (the one-character entries of a string-valued `properties`) |
| ModelCode.StringNotNested | src/services/generateModelCode.ts:183-201 | a string property has no nested declaration |
| ModelCode.AllOfKeepsName | src/services/generateModelCode.ts:109-137 | `allOf` keeps the interface's header |
| ModelCode.CompositionsNamed | src/services/generateModelCode.ts:106-155 | compositions keep the interface's header |
| ModelCode.InterfaceNamed | src/services/generateModelCode.ts:65-178 | the interface text declares the formatted model name |
| ModelCode.NestedOfNamed | src/services/generateModelCode.ts:183-201 | a nested declaration is an `InlineType` or `InlineArrayItem` interface |
| ModelCode.NestedNamed | src/services/generateModelCode.ts:161-170 | at most one nested declaration per property, each an inline interface |
| ModelCode.GenerateTypeScriptInterface | src/services/generateModelCode.ts:65-178 | the method computes `InterfaceText` |
| ModelCode.AppendMembers | src/services/generateModelCode.ts:85-103 | the loop appends the members' text or fails with the member's error |
| ModelCode.CompositionsOf | src/services/generateModelCode.ts:106-155 | the method computes `Compositions` |
| ModelCode.ApplyAllOfMember | src/services/generateModelCode.ts:110-137 | one `allOf` member is applied as `AllOfStep` |
| ModelCode.GenerateNested | src/services/generateModelCode.ts:161-170 | the loop computes `NestedAll` |
| ModelCode.GenerateNestedTypes | src/services/generateModelCode.ts:183-201 | the method computes `NestedOf` |
| ModelCode.ModelSchema | src/services/generateModelCode.ts:36-51 | a truthy non-string `openapi` (or, failing OpenAPI 3, `swagger`) throws the `startsWith` TypeError; an `openapi` starting `3.` reads only `components.schemas`, otherwise a `swagger` starting `2.` reads only `definitions`; any other document, or a missing model, is not found; a found model is truthy |
| ModelCode.OpenApiWithoutModel | src/services/generateModelCode.ts:38-51 | an OpenAPI 3 document lacking the model finds none, whatever `definitions` holds |
| ModelCode.UnknownVersionNotFound | src/services/generateModelCode.ts:38-51 | an `openapi` version not starting `3.` (say `4.0`) without `swagger` finds no model |
| ModelCode.OtherVersionNotFound | src/services/generateModelCode.ts:38-51 | a document that is neither version finds no model |
| ModelCode.OpenApiUsesComponents | src/services/generateModelCode.ts:39-42 | an OpenAPI 3 document takes the model from `components.schemas` |
| ModelCode.SwaggerUsesDefinitions | src/services/generateModelCode.ts:44-47 | a Swagger 2 document takes it from `definitions` |
| ModelCode.ModelCodeFor | src/services/generateModelCode.ts:19-60 | an empty path and a missing file fail with "Error generating model code: " and their messages |
| ModelCode.GenerateModelCode | src/services/generateModelCode.ts:19-60 | the method computes `ModelCodeFor` |
| EndpointModels.Prop | src/services/listEndpointModels.ts:173-176 | `current[part]` on an object is its property; a value found off an object or an array is strictly inside the value read, and one found off a string is a one-character string |
| EndpointModels.IndexNamed | src/services/listEndpointModels.ts:173 | the index a property name denotes is the one whose decimal text it is, and none when it has none |
| EndpointModels.ModelsOf | src/services/listEndpointModels.ts:122-130 | one model per reference, in order, named by the last segment with the resolved schema |
| EndpointModels.DistinctAppend | src/services/listEndpointModels.ts:118-120 | adding a reference keeps the list duplicate-free exactly when it was not there |
| EndpointModels.DistinctMeans | src/services/listEndpointModels.ts:118-120 | the list is duplicate-free exactly when no two positions hold the same reference |
| EndpointModels.Visit | src/services/listEndpointModels.ts:107-159 | the walk only appends references, and never appends one already listed |
| EndpointModels.RefNode | src/services/listEndpointModels.ts:116-137 | the `$ref` branch only appends, without duplicates |
| EndpointModels.Children | src/services/listEndpointModels.ts:139-158 | items, properties and compositions only append, without duplicates |
| EndpointModels.Stages | src/services/listEndpointModels.ts:139-158 | the first stages of the walk only append, without duplicates |
| EndpointModels.Stage | src/services/listEndpointModels.ts:139-158 | one stage only appends, without duplicates |
| EndpointModels.Group | src/services/listEndpointModels.ts:151-158 | one composition keyword only appends, without duplicates |
| EndpointModels.VisitAll | src/services/listEndpointModels.ts:146-156 | visiting a list of schemas only appends, without duplicates |
| EndpointModels.PropertyValues | src/services/listEndpointModels.ts:146-147 | the values of `properties` are inside it and hold no other references |
| EndpointModels.UnseenShrinks | src/services/listEndpointModels.ts:118-120 | following a new reference shrinks the references still unseen, so the walk ends on cyclic documents |
| EndpointModels.SchemaRefs | src/services/listEndpointModels.ts:67-69 | one schema holder only appends, without duplicates |
| EndpointModels.HoldersRefs | src/services/listEndpointModels.ts:64-70 | the media types only append, without duplicates |
| EndpointModels.Values | src/services/listEndpointModels.ts:64-65 | the values `for...in` reads, in order |
| EndpointModels.BodyRefs | src/services/listEndpointModels.ts:61-71 | the request body only appends, without duplicates |
| EndpointModels.ParameterRefs | src/services/listEndpointModels.ts:74-80 | the parameters only append, without duplicates |
| EndpointModels.ResponseRefs | src/services/listEndpointModels.ts:85-94 | one response only appends, without duplicates |
| EndpointModels.ResponsesRefs | src/services/listEndpointModels.ts:84-95 | the responses only append, without duplicates |
| EndpointModels.ResponsePhase | src/services/listEndpointModels.ts:83-96 | the responses phase only appends, without duplicates |
| EndpointModels.OperationRefs | src/services/listEndpointModels.ts:57-96 | the references collected for an operation have no duplicates |
| EndpointModels.OperationOf | src/services/listEndpointModels.ts:43-54 | a `null` document throws on `paths`, a missing path fails naming it, a missing method fails naming method and path, and otherwise the truthy operation under the lower-cased method is returned |
| EndpointModels.EndpointModelsFor | src/services/listEndpointModels.ts:26-102 | an empty path and a missing file fail with their messages; otherwise the models, or the error prefixed with "Error listing endpoint models: " |
| EndpointModels.ChildrenNone | src/services/listEndpointModels.ts:139-158 | a schema without array items, properties or compositions adds nothing after its `$ref` |
| EndpointModels.StringVisitIgnored | src/services/listEndpointModels.ts:113-158 | a string schema adds nothing |
| EndpointModels.SeenRefStops | src/services/listEndpointModels.ts:118 | a reference already processed returns at once, skipping the schema's other keys |
| EndpointModels.NewRefFirst | src/services/listEndpointModels.ts:120-130 | a new reference is listed before anything found under it, with its last segment and resolved schema |
| EndpointModels.UnresolvedListedOnce | src/services/listEndpointModels.ts:127-136 | a reference that resolves to nothing is still listed, with a `null` schema |
| EndpointModels.SelfReferenceStops | src/services/listEndpointModels.ts:116-137 | a model referring to itself is listed once and the walk ends |
| EndpointModels.MutualReferenceStops | src/services/listEndpointModels.ts:116-137 | two models referring to each other are each listed once, in the order met |
| EndpointModels.OwnRefCollected | src/services/listEndpointModels.ts:116-130 | a schema's own reference is always in the result |
| EndpointModels.ResolveWholeDocument | src/services/listEndpointModels.ts:164-180 | a reference without a slash resolves to the whole document |
| EndpointModels.ResolvePath | src/services/listEndpointModels.ts:164-180 | a reference resolves by dropping its first piece and following the rest as literal keys |
| EndpointModels.ResolveTwoSteps | src/services/listEndpointModels.ts:164-180 | `#/definitions/X` resolves to the model `X` when both steps are truthy |
| EndpointModels.StagesPrefix | src/services/listEndpointModels.ts:139-158 | every earlier stage's result is a prefix of the whole result |
| EndpointModels.VisitAllCollects | src/services/listEndpointModels.ts:146-156 | the reference of every schema in a list is collected |
| EndpointModels.ChildrenInVisit | src/services/listEndpointModels.ts:116-158 | what the children collect is in the walk's result |
| EndpointModels.ItemsFollowed | src/services/listEndpointModels.ts:140-142 | a reference under the items of an array is collected |
| EndpointModels.PropertyFollowed | src/services/listEndpointModels.ts:145-149 | a reference under any property is collected |
| EndpointModels.MemberFollowed | src/services/listEndpointModels.ts:152-158 | a reference under any `allOf`, `anyOf` or `oneOf` member is collected |
| EndpointModels.MethodCaseIgnored | src/services/listEndpointModels.ts:50 | methods equal up to case list the same models |
| EndpointModels.ResponseSchemaIgnored | src/services/listEndpointModels.ts:86 | a response without content adds nothing |
| EndpointModels.PhasesInOrder | src/services/listEndpointModels.ts:60-96 | the body's models come first, then the parameters', then the responses' |
| EndpointModels.ModelsDistinct | src/services/listEndpointModels.ts:57-98 | the models listed are those of a duplicate-free list of references |
| EndpointModels.ResolveReference | src/services/listEndpointModels.ts:164-180 | the loop computes `Resolve` |
| EndpointModels.ModelCollector.constructor | src/services/listEndpointModels.ts:57-58 | an empty model list and an empty set |
| EndpointModels.ModelCollector.Extract | src/services/listEndpointModels.ts:107-159 | the collector takes the state `Visit` gives, or its error, and keeps its invariant |
| EndpointModels.ModelCollector.ExtractChildren | src/services/listEndpointModels.ts:139-158 | the same for the children |
| EndpointModels.ModelCollector.ExtractCompositions | src/services/listEndpointModels.ts:151-158 | the same for the three composition keywords |
| EndpointModels.ModelCollector.ExtractItems | src/services/listEndpointModels.ts:140-142 | the same for array items |
| EndpointModels.ModelCollector.ExtractProperties | src/services/listEndpointModels.ts:144-149 | the same for properties |
| EndpointModels.ModelCollector.ExtractGroup | src/services/listEndpointModels.ts:153-157 | the same for one composition keyword |
| EndpointModels.ModelCollector.ExtractAll | src/services/listEndpointModels.ts:154-156 | the same for a list of schemas |
| EndpointModels.ScanSchemas | src/services/listEndpointModels.ts:64-70 | the media-type loop brings the collector to the state `HoldersRefs` gives |
| EndpointModels.ScanResponses | src/services/listEndpointModels.ts:84-95 | the response loop brings the collector to the state `ResponsesRefs` gives |
| EndpointModels.ListEndpointModels | src/services/listEndpointModels.ts:26-102 | the method computes `EndpointModelsFor` |

## Left out

- Reading files and parsing JSON or YAML are not modelled: a file is its parsed document. The choice between `yaml.load` and `JSON.parse` by file extension is gone with them.
- Floating-point numbers are left out: numbers are integers.
- `async` and `await` are left out, and tool registration and the MCP server (src/index.ts, src/tools/) are not part of this model.
- Property reads are modelled only on objects. Arrays and strings answer no named property, not even `length` or prototype methods. Two places also index arrays and strings by decimal position, through `EndpointModels.Prop`: the steps of `resolveReference`, and `EndpointModels.OperationOf`'s reads of `paths[path]` and `pathItem[method]`.
- Inherited `Object.prototype` members are not modelled: a key such as `constructor` or `toString` is found only when the object holds it as its own key. This covers a method named `constructor` in `EndpointTool.FindEndpoint` and `EndpointModels.OperationOf`, a reference such as `#/definitions/constructor` in `EndpointModels.Prop` and reference resolution, and the model lookups of `ModelCode.ModelSchema` and `SchemaMapper.FindModel`. The abbreviation table is modelled both ways (see Findings).
- Strings are sequences of Unicode characters, while JavaScript's `length` and `substring` count UTF-16 code units. For text outside the Basic Multilingual Plane, `Text.Take`, `ToolNaming.Fit`, `ToolNaming.NameLength` and `ToolNaming.OperationIdWins` count characters, not code units, so their 64-unit limit is not modelled for such text.
- The enumeration order of parsed objects is taken as given: the parser's placing of integer-like keys first is not modelled. The same holds for the objects the generator builds with `Json.Put` (the input schema's `properties`): JavaScript would list an integer-like key such as `"1"` before the others, and assigning `__proto__` would set the prototype instead of adding a key.
- Case mapping is ASCII only; `toLowerCase` and `toUpperCase` of other characters are left out.
- Non-string values where a string is expected are treated as absent. This covers `in`, `name` and the description being lower-cased. JavaScript would throw on some of these.
- ToolCode.EndpointCode: every truthy non-string `operationId` throws the `includes` TypeError. In the source an array has `includes`, so `["_"]` names the tool from the path and `["a"]` throws at `substring` instead; these two outcomes are not modelled.
- SchemaMapper.Walk: a truthy `$ref` that is not a string is treated as absent inside `processSchema` (nested schemas and model schemas), where the source throws `schema.$ref.split is not a function` (src/services/generateEndpointToolCode.ts:386). A request body or body parameter whose own `$ref` is such a value does throw in the model.
- `JSON.stringify` of the input schema, with its two quote-rewriting replacements, is the parameter `render` of `ToolCode`; its text is not modelled.
- Keys whose value JavaScript would store as `undefined` are left out of the produced objects, as `JSON.stringify` leaves them out.
- SchemaMapper.MapType: the type table is looked up among its own keys only. A type named like an inherited `Object.prototype` member is not modelled.
- SchemaMapper.FindModel: a model named like an inherited `Object.prototype` member is not found.
- SchemaMapper.ProcessSchemaAsWritten: the source's unbounded recursion carries a fuel bound, and `None` stands for running out of it. The stack overflow JavaScript would raise is not modelled.
- EndpointTool.ParamSlot: the contract gives, for each `in` value, which kind of entry a parameter can produce, but not the entry itself; the entry is stated by `TypedSlot`, `BodySlot`, `EnumOnlyForQuery` and `BodyWithoutSchema`.
- ToolCode.ToolDescription: its contract states the error cases; the text is stated by `DescriptionShape`. An object `parameters` with a positive `length` property, on which `filter` would throw, is treated like any other object.
- ValidateSchema.ValidateMCPSchema: the `catch` branch is left out, because matching a regular expression against a string does not throw.
- ModelCode.ModelSchema: a document that is literally `null` is treated as finding no model, where JavaScript would throw on reading `openapi`.
- ModelCode.ModelCodeFor: for an existing file, the contract leaves the result to `GenerateModelCode`, which is proved equal to it.
- EndpointModels.ModelCollector.Extract: the state after an error is not specified, because the source abandons the collection by throwing.
- A non-string `$ref` makes `extractReferencedModels` add it to `processedRefs` before `ref.split` throws. The model throws the same error without the addition, which is unobservable because the error ends the collection.
- `generateHandlerFunction` is modelled as template text (`ToolTemplate.HandlerText`) only through the validator lemmas.
- The unused `isOpenApi` flag of `listEndpoints` is left out.

## Findings

| source | as written | input that shows it | evidently intended | confidence | as-written member | corrected member |
|---|---|---|---|---|---|---|
| src/services/generateEndpointToolCode.ts:210-212 | `abbreviationMap[word]` also reads the inherited `Object.prototype` members, so a word like `constructor` yields a function and `shortSegment.charAt` throws | GET `/constructors`: singularised to `constructor`, the lookup returns `Object`, and the name generation throws a TypeError | only the table's own 30 keys are abbreviations; any other word is kept, giving `getConstructor` | not executed | ToolNamingExamples.ConstructorThrows | ToolNamingExamples.ConstructorSegment |
| src/services/generateEndpointToolCode.ts:385-393 | `processSchema` follows `$ref` into `extractModelSchema` without a cycle guard, so a model that refers to itself recurses forever | `definitions: {Node: {$ref: '#/definitions/Node'}}` with a body `$ref` to `Node` | a model already being expanded on the current path is not entered again, and a placeholder node is produced | not executed | SchemaMapper.LoopDocDiverges | SchemaMapper.WalkAgrees |

The corrected walk is `SchemaMapper.Walk`; `WalkAgrees` proves it equal to the recursion as written wherever the latter ends. The corrected name lookup is `ToolNaming.ProcessSegment`; `AsWrittenAgrees` proves it equal to the code as written wherever the latter does not throw.

## Where the documentation and the code differ

The model follows the code in each case:

- `processSchema` does not always return a node whose `type` is one of the six JSON Schema kinds: a found wrapper model without a `value` property is copied as `type: model.type || 'object'`, so a model type such as `file` passes through unmapped (`SchemaMapper.ModelTypeLeaks`, src/services/generateEndpointToolCode.ts:608-611). `SchemaMapper.KindsWhenModelsTyped` gives the condition under which the kinds do hold.
- An unresolvable reference is still listed by `listEndpointModels`, with a `null` schema (`EndpointModels.UnresolvedListedOnce`).
- In `allOf`, the first reference decides what the interface extends; later references find the plain header gone (`ModelCode.LaterRefIgnored`).
- A tool name is within 64 characters only when the method's short prefix is (`ToolNaming.NameLength`). An unknown method's lower-cased name can be longer.
- The abbreviation table has 30 entries.
