# terraform-provider-func: the type bridge, in Dafny

terraform-provider-func is a Terraform provider that lets a configuration
call functions written in JavaScript. A script registers its functions with
`$()` and documents them with JSDoc comments. The provider reads each
signature's TypeScript-style annotations as Terraform types. The `func` data
source (and the provider functions) then bind Terraform inputs to the
function's parameters, hand them to the script engine and coerce the result
back to the declared Terraform type. An older library format declares each
function as an exported record with `fnString`, `args`, `returns` and `fn`.

This project models that type bridge and proves properties of it:

- the structural type algebra and its two equalities: the shallow kind
  equality of `tftypes/check.go` and the framework's deep equality
  (`types.dfy`, `values.dfy`);
- `CollapseTypes` and `DiagnosticsToError` (`helpers.dfy`), and the
  framework's collection constructors they guard (`framework.dfy`);
- the type coercion `tfconvert.Convert` (`convert.dfy`);
- the Terraform-to-script value marshalling `FromTfValue` (`from_tf.dfy`);
- the type a JSON document implies, `JSONImpliedType`, read from a token
  sequence through a decoder object with a cursor (`json_type.dfy`);
- the parameter and return records of `tfarg` (`tfarg.dfy`);
- the two type-expression parsers: `getTerraformType` for JSDoc annotations
  (`js_types.dfy`) and the older `toAttrType`/`ToSDKParameter`
  (`arguments.dfy`);
- the JSDoc reader (`jsdoc.dfy`), argument-name extraction (`arg_names.dfy`,
  over the Go string helpers in `text.dfy`), and the script runtime's
  metadata and function registries (`runtime.dfy`);
- building and calling a provider function from a script function
  (`js_function.dfy`);
- the declaration checks of the older library parser (`parser.dfy`);
- argument binding, return coercion and the input validator of the data
  source (`data_source.dfy`).

Code that updates state step by step is modelled imperatively:

- the runtime registries, the library parser and the data source are
  classes whose methods change their fields;
- the decoder is a class with a cursor;
- the data source fills an argument array.

Every loop of the source is a method with invariants. Each method is proved
against a reference function and can be read beside it.

Go panics (a nil dereference, an index out of range, a failed type
assertion) are explicit error outcomes, never preconditions. For instance,
`DataSource.NullInputsReachNil` shows that null inputs pass the input
validator. That validator expects them for functions without parameters,
yet `Read` then dereferences their nil underlying value.

## Model

| member | source | states |
|---|---|---|
| Types.PlainTypeString | tftypes/check.go:64-102 | every type gets the tag of its outermost kind, and anything that is none of the eight kinds gets the Dynamic tag |
| Types.PlainTypeStringTags | tftypes/check.go:68-101 | each of the nine tags is produced by exactly its own kind (both directions) |
| Types.KindTagInjective | tftypes/check.go:68-101 | two kinds have the same tag exactly when they are the same kind |
| Types.TypeEqual | tftypes/check.go:104-142 | true exactly when both types have the same one of the eight kinds; Dynamic matches nothing |
| Types.TypeEqualSymmetric | tftypes/check.go:108-142 | shallow equality does not depend on argument order |
| Types.TypeEqualTransitive | tftypes/check.go:108-142 | shallow equality is transitive |
| Types.DynamicEqualsNothing | tftypes/check.go:141 | Dynamic is shallow-equal to no type, itself included |
| Types.TypeEqualIgnoresInnerTypes | tftypes/check.go:104-107 | any two lists, sets, maps, tuples or objects are shallow-equal whatever their inner types |
| Types.TypeEqualIffSameTag | tftypes/check.go:64-142 | shallow equality holds exactly when both plain tags are equal and not the Dynamic tag |
| Helpers.FirstMismatch | tftypes/helpers.go:34-43 | the first later position whose type is not shallow-equal to the first type, with every position before it equal, or none when all are |
| Helpers.CollapseTypes | tftypes/helpers.go:30-46 | the loop returns what `Collapse` specifies |
| Helpers.CollapseSucceedsIff | tftypes/helpers.go:32-46 | collapsing gives a type exactly when the list is non-empty, the type is the first entry, and every later entry has its kind |
| Helpers.CollapseFailureNamesMismatch | tftypes/helpers.go:40-42 | a failure names the first type and a later type that is not shallow-equal to it |
| Helpers.CollapseNoneIffEmpty | tftypes/helpers.go:33-45 | only the empty list collapses to no type |
| Helpers.CollapseSucceedsIffPairwise | tftypes/helpers.go:32-46 | with two or more types, collapsing succeeds exactly when every pair is shallow-equal |
| Helpers.CollapseOrderInsensitive | tftypes/helpers.go:32-46 | any rearrangement of the types succeeds or fails alike, and on success yields a type of the same kind |
| Helpers.FirstErrorIndex | tftypes/helpers.go:57-58 | the position of the first error-severity diagnostic, with none before it |
| Helpers.DiagnosticsResult | tftypes/helpers.go:54-67 | the value exactly when no diagnostic is an error; otherwise an error with the detail of the first error diagnostic (every earlier one being a warning) and the count of all diagnostics |
| Helpers.DiagnosticsResultFirst | tftypes/helpers.go:57-60 | when the first diagnostic is an error it is the one reported, whatever follows it |
| Helpers.DiagnosticsToError | tftypes/helpers.go:54-67 | the loop returns what `DiagnosticsResult` specifies |
| Framework.Mismatches | tftypes/tfconvert/tfconvert.go:119 | the positions from the starting one on whose element is not of the element type; empty exactly when every element has it |
| Framework.ElementDiagnostics | tftypes/tfconvert/tfconvert.go:119 | all diagnostics are errors, and there are none exactly when every element has the element type |
| Framework.NewListValue | tftypes/tfconvert/tfconvert.go:119 | a list succeeds exactly when every element has the element type, and keeps the elements |
| Framework.NewSetValue | tftypes/tfconvert/tfconvert.go:126 | a set succeeds exactly when every element has the element type, and keeps the elements |
| Framework.NewTupleValue | tftypes/tfconvert/tfconvert.go:146 | a tuple succeeds exactly when there is one matching type per element; a length mismatch is a single error |
| Framework.TupleDiagnostics | tftypes/tfconvert/tfconvert.go:146 | one error per element whose declared type differs; none exactly when all match |
| Framework.KeyMismatches | tftypes/tfconvert/tfconvert.go:188 | the visited keys whose element is not of the element type |
| Framework.NewMapValue | tftypes/tfconvert/tfconvert.go:188 | a map succeeds exactly when every element has the element type; a failure names one such key |
| Framework.NewObjectValue | tftypes/tfconvert/tfconvert.go:208 | an object succeeds exactly when the attributes are the declared ones, each with its declared type |
| Values.KeyOrder | tftypes/tfconvert/tfconvert.go:183 | some order that visits every key of the map exactly once |
| Values.NewDynamicValue | tftypes/tfconvert/tfconvert.go:31 | the wrapped value has the Dynamic type, and is well typed when its content is |
| Convert.ConvertValue | tftypes/tfconvert/tfconvert.go:20-55 | the converter returns exactly the conversion `Converted` specifies for the value, the target type and the object key order |
| Convert.ConvertFastPaths | tftypes/tfconvert/tfconvert.go:22-32 | a value already of the target type comes back unchanged; any other value converted to Dynamic comes back wrapped as a dynamic value |
| Convert.Dispatch | tftypes/tfconvert/tfconvert.go:35-54 | every other pair goes to the converter of the source value's kind; a Dynamic-typed source fails with the "don't know how to convert" error |
| Convert.BoolConversions | tftypes/tfconvert/tfconvert.go:61-70 | a bool becomes the number 1 or 0, or the string "true" or "false"; every other target fails |
| Convert.NumberConversions | tftypes/tfconvert/tfconvert.go:76-90 | in the corrected form, a number becomes true exactly when it is nonzero (the source agrees on every exact int64), or its decimal text; a null or unknown number fails at Bool and String; every other target fails |
| Convert.StringConversions | tftypes/tfconvert/tfconvert.go:96-103 | a string converts to no type other than String |
| Convert.CollectionToString | tftypes/tfconvert/tfconvert.go:110-112 | a tuple, list, set, object or map converts to String as its rendered text |
| Convert.OtherPairsFail | tftypes/tfconvert/tfconvert.go:61-212 | every pair of kinds outside the table of supported conversions fails, with the source converter's own error |
| Convert.ConvertedWellTyped | tftypes/tfconvert/tfconvert.go:20-212 | a successful conversion of a well-typed value is well typed and has the kind of the target type |
| Convert.CollapseUniform | tftypes/helpers.go:30-46 | a list of types that are all deeply equal collapses to its first type; a successful collapse of two or more types never starts with Dynamic |
| Convert.TupleToCollection | tftypes/tfconvert/tfconvert.go:113-126 | a known tuple converts to a list or a set exactly when its element types are all deeply the same and, with two or more elements, the first is not Dynamic, and keeps its elements in order under the first element's type |
| Convert.ListOrSetToTuple | tftypes/tfconvert/tfconvert.go:140-168 | in the corrected form, every well-typed list or set converts to the tuple of its elements, each typed with the element type |
| Convert.SetToList | tftypes/tfconvert/tfconvert.go:160-161 | a well-typed set converts to the list of the same elements and element type |
| Convert.MapToObject | tftypes/tfconvert/tfconvert.go:202-208 | a well-typed map converts to an object with the same entries, every attribute typed with the map's element type |
| Convert.ObjectToMap | tftypes/tfconvert/tfconvert.go:182-188 | a known object converts to a map exactly when all its attribute types are deeply the same and, with two or more attributes, not Dynamic; the map keeps the attributes under that type, and an empty object becomes an empty map whose Dynamic element type is the model's stand-in for Go's nil |
| Convert.ObjectToMapOrderIrrelevant | tftypes/tfconvert/tfconvert.go:183 | the result of converting an object to a map does not depend on the order in which Go visits the attributes |
| Convert.UniformAttributeTypes | tftypes/tfconvert/tfconvert.go:203-206 | the loop builds exactly the map `UniformAttrs` specifies |
| Convert.AttributeTypesInOrder | tftypes/tfconvert/tfconvert.go:183 | the loop lists exactly the attribute types `ValuesInOrder` specifies |
| Convert.ConvertTuple | tftypes/tfconvert/tfconvert.go:109-130 | the tuple converter returns what `TupleConverted` specifies |
| Convert.ConvertList | tftypes/tfconvert/tfconvert.go:136-150 | the list converter returns what `ListConverted` specifies (with one type per element) |
| Convert.ConvertSet | tftypes/tfconvert/tfconvert.go:156-172 | the set converter returns what `SetConverted` specifies (with one type per element) |
| Convert.ConvertObject | tftypes/tfconvert/tfconvert.go:178-192 | the object converter returns what `ObjectConverted` specifies |
| Convert.ConvertMap | tftypes/tfconvert/tfconvert.go:198-212 | the map converter returns what `MapConverted` specifies |
| Convert.BuildTupleTypes | tftypes/tfconvert/tfconvert.go:141-144 | the corrected loop builds exactly `TupleTypes` |
| Convert.TupleTypesAccepted | tftypes/tfconvert/tfconvert.go:146 | with one type per element, every list or set whose elements have that type converts to a tuple |
| Convert.BuildTupleTypesAsWritten | tftypes/tfconvert/tfconvert.go:141-144 | the loop as written builds exactly `AsWrittenTupleTypes` |
| Convert.AsWrittenTupleConversionFails | tftypes/tfconvert/tfconvert.go:141-168 | as written, every non-empty list or set fails to become a tuple, with a length error |
| Convert.NumberToBoolIsNonZero | tftypes/tfconvert/tfconvert.go:79-84 | the corrected conversion is true exactly for nonzero numbers, and agrees with the source on every exact int64 |
| Convert.NumberToBoolAsWrittenMisses | tftypes/tfconvert/tfconvert.go:83-84 | as written, 2.5 and 2^63 are nonzero yet convert to false |
| Text.TrimSpace | internal/javascript/runtime.go:163 | the result drops only Go white space from both ends, and neither end of a non-empty result is white space |
| Text.TrimSpaceSlice | internal/javascript/runtime.go:163 | the trimmed text is one contiguous slice of the input, with nothing but white space before and after it |
| Text.TrimSpaceIdempotent | internal/javascript/runtime.go:163 | trimming twice is the same as trimming once |
| Text.Split | internal/javascript/runtime.go:161 | splitting yields at least one and at most one more piece than there are characters |
| Text.SplitNoSep | internal/javascript/runtime.go:161 | no piece contains the separator |
| Text.JoinSplit | internal/javascript/runtime.go:161 | joining the pieces back with the separator gives the original text |
| Text.SplitJoin | internal/javascript/runtime.go:161 | splitting a non-empty join of separator-free pieces gives those pieces back |
| Text.NatTextValue | tftypes/tfconvert/tfconvert.go:86 | the decimal digits written for a natural number read back as that number |
| Text.WordCharIsNotSpace | internal/javascript/jsdoc.go:13 | a regular-expression word character is never white space |
| Text.ReSpaceIsGoSpace | internal/javascript/jsdoc.go:17 | every regular-expression `\s` character is also Go white space |
| ArgNames.ParenGroupExists | internal/javascript/runtime.go:156-159 | a parenthesised group is found exactly when some `(` comes before some later `)` |
| ArgNames.ParenGroupOf | internal/javascript/runtime.go:16 | the group is the text between the first `(` and the first `)` after it |
| ArgNames.Names | internal/javascript/runtime.go:155-174 | the only failure is a text with no parenthesised group |
| ArgNames.NamesOfGroup | internal/javascript/runtime.go:161-173 | the names are the group's comma-separated pieces, trimmed, with empty ones dropped |
| ArgNames.NamesAreClean | internal/javascript/runtime.go:161-173 | every extracted name is non-empty, trimmed, and free of commas and `)` |
| ArgNames.EmptyParentheses | internal/javascript/runtime.go:166-173 | a function with no parameters has an empty list of names, not a failure |
| ArgNames.NamesRoundTrip | internal/javascript/runtime.go:155-174 | writing clean names between parentheses and extracting them gives the same names back |
| ArgNames.ExtractArgNames | internal/javascript/runtime.go:155-174 | the extraction returns what `Names` specifies |
| ArgNames.CleanPieces | internal/javascript/runtime.go:161-173 | the two loops give the pieces trimmed, with empty ones dropped |
| ArgNames.TrimInPlace | internal/javascript/runtime.go:162-164 | each slot of the array is replaced by its trimmed text, in place |
| ArgNames.DropEmpty | internal/javascript/runtime.go:166-171 | the non-empty entries, in their order |
| ArgNames.NonEmpty | internal/javascript/runtime.go:166-171 | the kept entries are non-empty and come from the input |
| Arguments.ToAttrType | internal/functions/argument.go:131-168 | every type text maps to a type built from Number, String, Bool, Dynamic, List, Map and Set; unknown text maps to Dynamic |
| Arguments.ToAttrTypeReadsTypeText | internal/functions/argument.go:131-168 | reading the text written for any such type gives that type back |
| Arguments.ToAttrTypeNeverFails | internal/functions/argument.go:131-168 | no text maps to a tuple or an object type |
| Arguments.UnrecognisedNames | internal/functions/argument.go:133-167 | `boolean` and ` number` are not recognised and map to Dynamic, while `Map<bool>` is a map of Bool |
| Arguments.ToSDKParameter | internal/functions/argument.go:23-87 | the parameter keeps the argument's name, and its description doubles as the Markdown description |
| Arguments.ParameterAndReturnAgree | internal/functions/argument.go:23-125 | a parameter and a return built from the same argument have the same shape |
| Arguments.CollectionShapeAgrees | internal/functions/argument.go:49-86 | for a text other than the three base names, the shape agrees with the type `toAttrType` reads |
| Arguments.SdkShapeFollowsAttrType | internal/functions/argument.go:23-125 | for a text without surrounding white space, the parameter and the return have the shape of the type `toAttrType` reads |
| Arguments.Wrapped | internal/functions/argument.go:67 | the inner text of `Map<...>` or `Set<...>` is what lies between the four-character head and the final `>` |
| JsTypes.GetTerraformType | internal/javascript/tfjs.go:21-169 | the parser returns what `ParseType` specifies |
| JsTypes.ParseTupleElements | internal/javascript/tfjs.go:56-72 | the tuple loop trims each piece and parses it, stopping at the first piece that fails |
| JsTypes.ParseObjectMembers | internal/javascript/tfjs.go:102-166 | the object branch returns what `ParseObject` specifies |
| JsTypes.UnionRejected | internal/javascript/tfjs.go:23-25 | any text containing a vertical bar is rejected as a union |
| JsTypes.PrimitiveExamples | internal/javascript/tfjs.go:28-39 | `boolean`, `number` and `string` are primitives and `any` is Dynamic; `bool` is none of them and falls through to Dynamic |
| JsTypes.ArrayOf | internal/javascript/tfjs.go:42-52 | `T[]` is a list of `T`, or fails naming `T` with `T`'s error |
| JsTypes.TupleOf | internal/javascript/tfjs.go:55-73 | `[A, B, ...]` is the tuple of its trimmed pieces' types when all parse; otherwise it fails with the first failing piece's error |
| JsTypes.SetOf | internal/javascript/tfjs.go:76-86 | `Set<T>` is a set of `T`, or fails naming `T` with `T`'s error |
| JsTypes.MapOf | internal/javascript/tfjs.go:89-99 | `Map<T>` is a map of `T`, or fails naming `T` with `T`'s error |
| JsTypes.IndexSignatureIsMap | internal/javascript/tfjs.go:107-142 | an object whose only member is an index signature is a map of the value type when the key type is `string`; otherwise it fails with the key-type or value-type error |
| JsTypes.ObjectOfMembers | internal/javascript/tfjs.go:145-165 | any other object succeeds exactly when every member is named and its type parses; it then holds exactly the member keys, each typed by the last member with that key |
| JsTypes.PlainParses | internal/javascript/tfjs.go:21-169 | a type text with no vertical bar and no `{` always parses |
| JsTypes.CollectElemsResult | internal/javascript/tfjs.go:59-72 | the tuple loop succeeds with all element types when every piece parses, and otherwise fails at the first piece that does not |
| JsTypes.CollectMembersSucceedIff | internal/javascript/tfjs.go:145-163 | the member loop succeeds exactly when every match is a named member whose type parses |
| JsTypes.CollectMembersValue | internal/javascript/tfjs.go:145-165 | a successful member loop holds exactly the keys seen, each with the last type given for it |
| JsDoc.RemoveWhitespace | internal/javascript/jsdoc.go:164-166 | the result keeps the input's characters in order, minus every `\s` character |
| JsDoc.RemoveWhitespaceAppend | internal/javascript/jsdoc.go:164-166 | removing white space distributes over concatenation |
| JsDoc.RemoveWhitespaceIdempotent | internal/javascript/jsdoc.go:164-166 | removing white space twice is the same as once |
| JsDoc.RemoveWhitespaceKeeps | internal/javascript/jsdoc.go:164-166 | a text without white space is unchanged |
| JsDoc.StripLeaderLongest | internal/javascript/jsdoc.go:12 | what is removed from the start of a line is a leader (`*` with optional white space around it), and no longer prefix is one |
| JsDoc.FindTag | internal/javascript/jsdoc.go:86-87 | a tag is found exactly when the line is `@` followed by a word character; the line is `@`, the whole word, then the rest |
| JsDoc.FirstParamIsLeftmost | internal/javascript/jsdoc.go:96 | the parameter-name match found is the leftmost one: none starts earlier |
| JsDoc.FindDescription | internal/javascript/jsdoc.go:97 | a description is found exactly when the text is non-empty and does not end in `}` |
| JsDoc.TypeOnOneLine | internal/javascript/jsdoc.go:98 | on one line, the type is the trimmed text between the first `{` and the last `}`, and none when there is no such pair |
| JsDoc.LineKindSpec | internal/javascript/jsdoc.go:80-124 | an empty line is skipped, a line not starting with `@` is description text, a tag other than `param` or `returns` is an unknown-tag error, and a `@` with no word is a failed match |
| JsDoc.DocFoldOutcome | internal/javascript/jsdoc.go:73-125 | the line loop succeeds exactly when no line is bad, and otherwise fails with the first bad line's error |
| JsDoc.DocFoldParams | internal/javascript/jsdoc.go:90-104 | the parameters are those of the `@param` lines, in order |
| JsDoc.DocFoldReturns | internal/javascript/jsdoc.go:105-116 | the return entry is that of the last `@returns` line |
| JsDoc.LastReturnsWins | internal/javascript/jsdoc.go:113-116 | a later `@returns` line replaces any earlier one |
| JsDoc.DocFoldBuffer | internal/javascript/jsdoc.go:120-124 | the description buffer is every text line, each followed by a line break |
| JsDoc.DocResultSpec | internal/javascript/jsdoc.go:65-151 | parsing succeeds exactly when no line is bad; the summary is the first text line, the description the rest, the parameters in order and the last return entry |
| JsDoc.ParseJSDoc | internal/javascript/jsdoc.go:65-151 | the parser returns what `DocMetadata` specifies |
| JsDoc.CollectLines | internal/javascript/jsdoc.go:73-151 | the line loop returns what `DocResult` specifies |
| JsDoc.BlockAt | internal/javascript/jsdoc.go:11 | a match is the first opening `/**`, the shortest text up to a closing star-slash and line break, and a one-line signature |
| JsDoc.ParseScriptJSDoc | internal/javascript/jsdoc.go:42-62 | the script loop returns what `ScriptMetadata` specifies |
| JsDoc.ScriptFoldOutcome | internal/javascript/jsdoc.go:53-56 | the script parse succeeds exactly when every block parses, and otherwise fails with the first bad block's error |
| JsDoc.ScriptFoldKeys | internal/javascript/jsdoc.go:51-58 | the result has one key per block: its signature with all white space removed |
| JsDoc.ScriptFoldLastWins | internal/javascript/jsdoc.go:58 | a key names the metadata of the last block with that key |
| JsRuntime.FirstLine | internal/javascript/runtime.go:111 | the part of the source before its first line break; it holds no line break |
| JsRuntime.HashOfFirstLine | internal/javascript/runtime.go:111-112 | the fingerprint is the first line with all white space removed; nothing after the first line break counts |
| JsRuntime.SameSignatureSameMetadata | internal/javascript/runtime.go:110-153 | two sources with the same fingerprint and the same argument names parse to the same function |
| JsRuntime.DefaultArgumentsAccepted | internal/javascript/runtime.go:122-127 | every default argument (a non-empty name, type `any`, no description) is accepted by the function builder |
| JsRuntime.UndocumentedFunction | internal/javascript/runtime.go:119-153 | without matching metadata a function is always built: it keeps the source's argument names in order, every argument and the return are dynamic, and the summary and descriptions are empty |
| JsRuntime.DefaultInputBuilt | internal/javascript/runtime.go:119-129 | the input built without metadata always makes a function with those names and dynamic shapes |
| JsRuntime.DocumentedFunction | internal/javascript/runtime.go:131-153 | with matching metadata, the summary and description come from it, argument `i` from the `i`-th `@param`, the return type from `@returns`, and the remaining arguments keep their source names and stay dynamic |
| JsRuntime.TooManyParams | internal/javascript/runtime.go:136-140 | metadata with more `@param` entries than the source declares is an index error (a panic in the source) |
| JsRuntime.ReturnsRequired | internal/javascript/runtime.go:142 | matching metadata without an `@returns` entry is a nil dereference (a panic in the source) |
| JsRuntime.ParsedFunctionName | internal/javascript/runtime.go:145-152 | a parsed function carries the name it was registered under |
| JsRuntime.RegistrationNamed | internal/javascript/runtime.go:79-107 | a successful registration was given a function value with a non-empty name, and the result carries that name |
| JsRuntime.JavaScriptRuntime.constructor | internal/javascript/runtime.go:28-50 | both registries start empty |
| JsRuntime.JavaScriptRuntime.Parse | internal/javascript/runtime.go:62-77 | a JSDoc error leaves the registries unchanged; otherwise the metadata is merged in, new keys replacing old ones, before the script's own error is reported |
| JsRuntime.JavaScriptRuntime.MergeMetadata | internal/javascript/runtime.go:68-70 | the registry becomes the old one overridden by the new metadata, whatever order the keys are visited in |
| JsRuntime.JavaScriptRuntime.RegisterFn | internal/javascript/runtime.go:79-108 | nothing, a non-function, an unnamed function or a failed parse is refused with its own error and leaves the registry unchanged; otherwise the function is stored under its name, replacing any earlier one |
| JsRuntime.JavaScriptRuntime.RegisterFunction | internal/javascript/runtime.go:92-106 | the same for a function value |
| JsRuntime.JavaScriptRuntime.Functions | internal/javascript/runtime.go:52-60 | every registered function exactly once, each the one stored under its name |
| JsRuntime.JavaScriptRuntime.ParseFunction | internal/javascript/runtime.go:110-153 | the function parser returns what `ParsedFunction` specifies for the current metadata |
| JsRuntime.JavaScriptRuntime.ParseInput | internal/javascript/runtime.go:111-143 | the merge returns what `InputOf` specifies |
| JsRuntime.DefaultArgumentArray | internal/javascript/runtime.go:122-127 | a new array holding exactly `DefaultArguments` |
| JsRuntime.ApplyParams | internal/javascript/runtime.go:136-140 | the argument slots are overwritten in place by the `@param` entries; it reports failure exactly when there are more entries than slots |
| JsFunction.ArgumentBuiltIff | internal/javascript/function.go:106-129 | an argument is built exactly when it has a name and a type text that parses to a type other than a tuple |
| JsFunction.ReturnBuiltIff | internal/javascript/function.go:131-139 | the return is built exactly when its type text parses to a type other than a tuple |
| JsFunction.BuiltIff | internal/javascript/function.go:96-149 | a function is built exactly when the input is present and named, every argument is accepted, and so is the return type |
| JsFunction.FailureNamesFirstBadArgument | internal/javascript/function.go:105-129 | an error naming an argument index names the first argument not accepted |
| JsFunction.UnnamedArgumentReported | internal/javascript/function.go:107-109 | an unnamed argument after only accepted ones is reported with its index |
| JsFunction.TupleReturnRejected | internal/javascript/function.go:136-139 | a tuple return type is refused by the return conversion |
| JsFunction.BuiltKeepsArguments | internal/javascript/function.go:105-148 | the function keeps the input's name, summary, description and argument order; each argument keeps its name and description, and its parameter is the one the parameter conversion gives for its parsed type |
| JsFunction.BuiltArgument | internal/javascript/function.go:124-128 | argument `i` of a built function comes from input argument `i` |
| JsFunction.ParameterForIsAsTerraformParameter | internal/javascript/function.go:116-119 | the parameter record is exactly what the parameter conversion returns with the description as both descriptions |
| JsFunction.NewJavaScriptFunction | internal/javascript/function.go:96-149 | the builder returns what `Built` specifies |
| JsFunction.BuildArgument | internal/javascript/function.go:107-128 | one pass of the argument loop returns what `ArgumentBuilt` specifies |
| JsFunction.BuildReturn | internal/javascript/function.go:131-148 | the return step returns what `ReturnBuilt` specifies |
| JsFunction.BuildArguments | internal/javascript/function.go:105-129 | the argument loop stops at the first failing argument, and otherwise returns every argument in order |
| JsFunction.ShapeTypeOfShapeOf | internal/javascript/function.go:60 | the value type a parameter allocates is the type it was declared with |
| JsFunction.AllocateParameters | internal/javascript/function.go:56-64 | one null value per argument, each of that argument's declared type |
| JsFunction.SlotsHaveDeclaredTypes | internal/javascript/function.go:56-64 | the slot allocated for argument `i` has exactly the type its JavaScript type text parses to |
| JsFunction.BindingOrder | internal/javascript/function.go:154-176 | the script receives every argument converted, in order; when an argument does not convert, the script is never consulted |
| JsFunction.BindingReportsFirstFailure | internal/javascript/function.go:157-161 | the argument reported is the first that does not convert, with its conversion error |
| JsFunction.BindArguments | internal/javascript/function.go:155-164 | the conversion loop returns every converted argument in order, or the first failure |
| JsFunction.CallBound | internal/javascript/function.go:154-177 | the bound callable returns what `Called` specifies |
| FromTf.RootCause | tftypes/tfgoja/from_tf.go:100-163 | the innermost error of a chain of wrapped element failures; it is never itself an element failure |
| FromTf.PrimitivesConverted | tftypes/tfgoja/from_tf.go:41-91 | an unknown value is refused with the unknown-value error; a null becomes `null`; booleans and strings pass through; a number that is exactly an int64 becomes an integer, any other number a float |
| FromTf.ConvertsIff | tftypes/tfgoja/from_tf.go:41-61 | the conversion succeeds exactly on the values of the reference predicate Convertible: nothing unknown at any depth, and below a dynamic wrapper only what the reflection helper accepts |
| FromTf.PropsConvertIff | tftypes/tfgoja/from_tf.go:144-170 | an object or map converts exactly when every one of its values is convertible |
| FromTf.ReflectsIff | tftypes/tfgoja/from_tf.go:63-142 | the reflection helper succeeds exactly on the values of the reference predicate Reflectable: no object or map, no null or unknown number or dynamic value, convertible elements |
| FromTf.ItemsConvertIff | tftypes/tfgoja/from_tf.go:93-139 | a list, set or tuple converts exactly when each of its elements does |
| FromTf.SequenceToArray | tftypes/tfgoja/from_tf.go:93-139 | a list, set or tuple becomes an array of the element conversions, same length and order, when every element converts; otherwise the first failing index i aborts, its error wrapped as list[i], set[i] or tuple[i] |
| FromTf.SequenceSucceeds | tftypes/tfgoja/from_tf.go:93-139 | success of the element loop exactly when every element result succeeds, and the array holds those results in order |
| FromTf.SequenceFailure | tftypes/tfgoja/from_tf.go:97-101 | a failing element loop reports the first failing element, at its index |
| FromTf.SequenceFold | tftypes/tfgoja/from_tf.go:93-139 | a list, set or tuple is converted by the element loop with the step kind of its type |
| FromTf.ItemsFoldResult | tftypes/tfgoja/from_tf.go:96-106 | the element loop from any start position keeps what it has gathered, appends every later result in order, and otherwise stops at the first failure with its index |
| FromTf.ObjectToJsObject | tftypes/tfgoja/from_tf.go:144-170 | an object or map becomes a script object whose properties are exactly its keys, each holding its converted value, defined in Go's visiting order; an empty one gives `{}`; otherwise the first failing key k in that order aborts, wrapped as object[k] or map[k] |
| FromTf.ObjectSucceedsIff | tftypes/tfgoja/from_tf.go:159-169 | an object or map converts exactly when all its values do |
| FromTf.ObjectValue | tftypes/tfgoja/from_tf.go:159-169 | a converted object lists its keys in visiting order and has exactly the keys of the map, each with the converted value |
| FromTf.ObjectEmpty | tftypes/tfgoja/from_tf.go:159-169 | an object or map with no entries gives an empty script object |
| FromTf.ObjectFold | tftypes/tfgoja/from_tf.go:144-170 | an object or map is converted by the property loop over the visiting order of its entries |
| FromTf.ObjectFailure | tftypes/tfgoja/from_tf.go:160-164 | a failing object or map names the first failing key in visiting order, all earlier keys having converted |
| FromTf.PropsFoldSucceeds | tftypes/tfgoja/from_tf.go:160-167 | the property loop succeeds exactly when every later result does |
| FromTf.PropsFoldKeys | tftypes/tfgoja/from_tf.go:160-167 | the property loop defines no key other than those already present and those it visits |
| FromTf.PropsFoldValue | tftypes/tfgoja/from_tf.go:160-167 | over distinct keys that all convert the loop succeeds and each key holds its own result |
| FromTf.PropsFoldFailure | tftypes/tfgoja/from_tf.go:160-164 | a failing property loop reports the first failing key with its error |
| FromTf.LaterSteps | tftypes/tfgoja/from_tf.go:160-167 | a property defined before the loop position and not visited again keeps its value |
| FromTf.DynamicUnwrapped | tftypes/tfgoja/from_tf.go:66-74 | a dynamic value converts as the reflection of its underlying value; an object or map behind a dynamic wrapper is the unknown-type error |
| FromTf.FromTfValue | tftypes/tfgoja/from_tf.go:41-61 | the conversion method computes the reference conversion Converted |
| FromTf.FromTfValueReflect | tftypes/tfgoja/from_tf.go:63-142 | the reflection method computes the reference Reflected |
| FromTf.FromTfElements | tftypes/tfgoja/from_tf.go:93-139 | the element loop computes the element fold over the element results |
| FromTf.FromTfValueObject | tftypes/tfgoja/from_tf.go:144-170 | the property loop computes the reference ObjectConverted |
| JsonType.Decoder.constructor | tftypes/tfgoja/json_type.go:41-43 | a decoder over the token sequence, positioned at its start |
| JsonType.Decoder.Token | tftypes/tfgoja/json_type.go:58-61 | the next token, advancing by one, or the end-of-input error with the position unchanged |
| JsonType.ImpliedType | tftypes/tfgoja/json_type.go:57-64 | the result and the new cursor are those of the reference parse ImpliedAt |
| JsonType.ImpliedTypeForTok | tftypes/tfgoja/json_type.go:66-95 | the result and the new cursor are those of the reference ForToken |
| JsonType.ImpliedObjectType | tftypes/tfgoja/json_type.go:97-141 | the result and the new cursor are those of the reference ObjectFrom |
| JsonType.ImpliedTupleType | tftypes/tfgoja/json_type.go:143-169 | the result and the new cursor are those of the reference TupleFrom |
| JsonType.JSONImpliedType | tftypes/tfgoja/json_type.go:40-55 | the type and error are those of the reference ImpliedTypeOf |
| JsonType.ImpliedIsJsonShaped | tftypes/tfgoja/json_type.go:57-64 | a successful parse step never implies a list, set or map type at any depth |
| JsonType.ForTokenIsJsonShaped | tftypes/tfgoja/json_type.go:66-95 | the type a token starts is JSON-shaped |
| JsonType.ObjectIsJsonShaped | tftypes/tfgoja/json_type.go:97-141 | an object of JSON-shaped attributes stays JSON-shaped |
| JsonType.TupleIsJsonShaped | tftypes/tfgoja/json_type.go:143-169 | a tuple of JSON-shaped elements stays JSON-shaped |
| JsonType.ImpliedTypeOfShape | tftypes/tfgoja/json_type.go:38-55 | every error comes with NullType, and the type returned is always JSON-shaped |
| JsonType.ErrorCases | tftypes/tfgoja/json_type.go:40-169 | empty input is end of input; a leading closing delimiter is an unexpected token; a delimiter other than `}` in key position is an unexpected delimiter; a non-string key is expected-string; an unclosed object or array is end of input; a second value is extraneous data; a stray closing delimiter after the value is not |
| JsonType.Tokens | tftypes/tfgoja/json_type.go:40-45 | a document produces at least one token, and never starts with a closing delimiter |
| JsonType.ElemTypes | tftypes/tfgoja/json_type.go:30-31 | one type per array member, each the type that member implies |
| JsonType.MemberTypesKeys | tftypes/tfgoja/json_type.go:27-28 | the attributes of an implied object type are exactly the keys of its members |
| JsonType.LastMemberWins | tftypes/tfgoja/json_type.go:133-137 | of several members with the same key, the type of the last one is kept |
| JsonType.MemberTypesKeep | tftypes/tfgoja/json_type.go:133-137 | an attribute no later member names keeps its type |
| JsonType.ParsesDocument | tftypes/tfgoja/json_type.go:57-95 | on the tokens of any document the decoder implies that document's type and stops right after its last token |
| JsonType.ParsesArray | tftypes/tfgoja/json_type.go:143-169 | on the tokens of an array, the tuple of its member types, ending after `]` |
| JsonType.ParsesObject | tftypes/tfgoja/json_type.go:97-141 | on the tokens of an object, the object of its member types, ending after `}` |
| JsonType.DocumentType | tftypes/tfgoja/json_type.go:17-55 | the tokens of any document imply the type the doc-comment rules give it, with no error; any following value is the extraneous-data error |
| JsonType.Unclosed | tftypes/tfgoja/json_type.go:103-107 | an array or object whose closing delimiter is missing gives the end-of-input error |
| TfArg.AsTerraformParameter | tftypes/tfarg/parameter.go:19-98 | a tuple is refused; any other type gives the parameter record its kind deserves, carrying the element or attribute types, the name and the descriptions, null allowed and unknown not |
| TfArg.AsTerraformReturn | tftypes/tfarg/parameter.go:102-133 | a tuple is refused; any other type gives the return record its kind deserves, carrying the element or attribute types |
| TfArg.NilOptionsAreEmpty | tftypes/tfarg/parameter.go:20-22 | nil options behave as empty descriptions |
| TfArg.ParameterAndReturnAgree | tftypes/tfarg/parameter.go:19-133 | a type is accepted as a parameter exactly when it is accepted as a return, with the same record |
| TfArg.OnlyTheKindDecides | tftypes/tfarg/parameter.go:102-133 | two types of the same kind are refused or accepted alike and give records of the same kind |
| FunctionsParser.ArgumentsDeclaredValues | internal/functions/parser.go:75-96 | an accepted `args` array gives one argument per entry, no more entries than extracted names; each entry is a map with a string `type`, and its argument takes the name at its index, that type and the description or empty |
| FunctionsParser.ArgumentsDeclaredFailure | internal/functions/parser.go:76-95 | a refused `args` array names its first bad entry: not a map, no string `type`, or no extracted name at that index; every earlier entry is well formed |
| FunctionsParser.MoreArgumentsThanNames | internal/functions/parser.go:86 | more declared arguments than names in the function text is always an error |
| FunctionsParser.DeclaredRequiresAll | internal/functions/parser.go:49-116 | an accepted declaration has a `fnString` whose names can be extracted, an array of well-formed `args`, a `returns` and a callable `fn` |
| FunctionsParser.DeclaredFields | internal/functions/parser.go:118-147 | an accepted declaration is named by its key, takes the checked arguments and the `returns` text, and reads a missing summary or description as empty |
| FunctionsParser.MissingDeclarations | internal/functions/parser.go:49-111 | a missing `fnString`, `args`, `returns` or `fn` is reported as that missing declaration, checked in the order of the source |
| FunctionsParser.AppendedInOrder | internal/functions/parser.go:44-150 | the loop appends the declarations in export order up to the first that fails and stops with that one's error; with no failure every export is appended |
| FunctionsParser.Parser.constructor | internal/functions/parser.go:27-34 | a new parser holds no functions |
| FunctionsParser.Parser.GetFunctions | internal/functions/parser.go:153-155 | the functions gathered so far |
| FunctionsParser.Parser.Parse | internal/functions/parser.go:36-151 | a script that fails to run changes nothing and is reported; otherwise the accepted declarations are appended to those already held, the ones before a failure staying appended, and the error is that of the first failing export |
| FunctionsParser.DeclaredPrefixGrows | internal/functions/parser.go:132-147 | appending the next accepted declaration keeps the gathered functions the declarations of the first exports |
| FunctionsParser.StoppedAt | internal/functions/parser.go:44-150 | a loop that stopped at the first failure, or at the end, has gathered exactly Appended and reports exactly StopError |
| FunctionsParser.DeclareFunction | internal/functions/parser.go:45-147 | the body of the export loop computes the reference Declared |
| FunctionsParser.CompleteFunction | internal/functions/parser.go:98-147 | the `returns` and `fn` checks and the optional reads compute the reference Completed |
| FunctionsParser.DeclareArguments | internal/functions/parser.go:75-96 | the `args` loop computes the reference ArgumentsDeclared |
| DataSource.PositionFrom | internal/provider/data_source.go:155-161 | the first position from the start on whose parameter has the key's name, or -1 when none has it |
| DataSource.PositionOfFirst | internal/provider/data_source.go:155-161 | the search finds a position exactly when some parameter has the name, and then the first such parameter |
| DataSource.FindParameter | internal/provider/data_source.go:155-161 | the search loop computes the reference PositionOf |
| DataSource.PositionFromSkips | internal/provider/data_source.go:156-160 | starting the search after parameters of other names changes nothing |
| DataSource.Placed | internal/provider/data_source.go:147-219 | placed inputs give one slot per parameter |
| DataSource.UnknownDefers | internal/provider/data_source.go:108-113 | the result is deferred exactly when the name, the inputs or their underlying value is unknown |
| DataSource.UndefinedFunction | internal/provider/data_source.go:115-125 | with everything known, the function-not-defined error occurs exactly when no function is registered under the name |
| DataSource.CalledNotUndefined | internal/provider/data_source.go:127-266 | once a function is found, no later step reports it as undefined |
| DataSource.PlacedNotUndefined | internal/provider/data_source.go:147-219 | binding the inputs never reports an undefined function |
| DataSource.NamedBinding | internal/provider/data_source.go:154-188 | object inputs bind exactly when every key names a parameter whose type (the first of that name) equals the value's type; the parameter holds the value of the key naming it, and only the first parameter of a name can |
| DataSource.NamedBindingOrderFree | internal/provider/data_source.go:154 | the order Go walks the keys in decides only which error comes first, never whether or how the inputs bind |
| DataSource.NamedFailure | internal/provider/data_source.go:163-185 | a refused object names the first key of the walk that has no parameter or a mismatched type; the keys before it bind |
| DataSource.TupleBinding | internal/provider/data_source.go:189-209 | tuple inputs bind exactly when no longer than the parameters and element i has parameter i's type; a tuple longer than the parameters indexes past them; parameter i holds element i if there is one |
| DataSource.TupleSlotsMissing | internal/provider/data_source.go:221-235 | a tuple shorter than the parameters leaves the next parameter without a value |
| DataSource.MissingValueReported | internal/provider/data_source.go:221-235 | the scan reports the first parameter left without a value, with its name and position; otherwise the arguments are the slot values in order |
| DataSource.BoundExactly | internal/provider/data_source.go:147-235 | the function receives one argument per parameter, each of that parameter's type; object inputs give each parameter the value of its key, tuple inputs give exactly the tuple |
| DataSource.ResultOrdered | internal/provider/data_source.go:248-250 | the visiting order passed to the return conversion is a valid order for the result's own keys when the result is an object |
| DataSource.ResultCoercion | internal/provider/data_source.go:248-268 | a result of the declared type is stored as it is; any other goes through the conversion, whose failure is the return-mismatch error; a stored conversion is well typed and of the declared kind |
| DataSource.ValidateDynamicAccepts | internal/provider/data_source.go:284-313 | the validator accepts exactly null, unknown, object and tuple inputs, and otherwise reports the unsupported type |
| DataSource.ValidatorAgreesWithRead | internal/provider/data_source.go:211-219 | on known inputs that are not null, the read's own invalid-input check refuses exactly what the validator refuses |
| DataSource.NamedNeverInvalid | internal/provider/data_source.go:154-188 | object inputs never fail with the invalid-input error |
| DataSource.TupleNeverInvalid | internal/provider/data_source.go:189-209 | tuple inputs never fail with the invalid-input error |
| DataSource.NullInputsReachNil | internal/provider/data_source.go:147-150 | null inputs pass the validator, yet the read dereferences their nil underlying value once the function is found |
| DataSource.DataSource.constructor | internal/provider/data_source.go:24-26 | a new data source holds no functions |
| DataSource.DataSource.Configure | internal/provider/data_source.go:78-96 | no provider data changes nothing; a function map replaces the functions; any other data is the unexpected-type error and changes nothing |
| DataSource.DataSource.Read | internal/provider/data_source.go:98-272 | the read computes the reference ReadOf on the registered functions |
| DataSource.BindInputs | internal/provider/data_source.go:147-235 | the binding steps compute the reference Bound |
| DataSource.PlaceNamed | internal/provider/data_source.go:151-188 | the key loop fills the argument array with the reference NamedPlaced, or reports its error |
| DataSource.NamedSlotsStep | internal/provider/data_source.go:187 | placing one more key's value at its parameter gives the slots with that key added |
| DataSource.PlaceElements | internal/provider/data_source.go:189-209 | the element loop fills the argument array with the reference TuplePlaced, or reports its error |
| DataSource.CheckFilled | internal/provider/data_source.go:221-235 | the scan computes the reference Filled on the argument array |
| DataSource.CoerceResult | internal/provider/data_source.go:248-268 | the coercion computes the reference Coerced |

## Left out

- The script engine (goja) is not part of this model: `RunString`, `AssertFunction`, `console`/`require`, the calls into a script function and the panics raised through the engine. What the engine reports is a parameter of the operation that needs it, and the `__exports` object of the library format is given as its entries in key order.
- `ToTfValue` (tftypes/tfgoja/to_tf.go) is not part of this model; calling a built function takes the script's execution and the conversion of its result as parameters.
- The framework's `String()` rendering of a collection is a parameter `render` of `Convert`.
- Go map iteration order is a parameter wherever the source walks a map (`order`, `keyOrder`).
- FromTf.ObjectToJsObject: Go's visiting order is a function of the map, so two walks of the same map are assumed to visit it in the same order; Go promises no such thing.
- FromTf.ObjectToJsObject: each property of the script object is defined read-only, non-configurable and enumerable (tftypes/tfgoja/from_tf.go:166); the model's script object is its keys in order and their values, and carries no property attributes.
- DataSource.NamedBinding: the visiting order of the object inputs is likewise a function of the key set; `DataSource.NamedBindingOrderFree` shows that only the reported error can depend on it.
- Floating point: a non-integer number is opaque. It carries its `big.Float` text and the outcome of the `float64` tolerance test of the Number-to-Bool converter, and marshalling it gives an opaque float.
- Convert.NumberConversions: `Convert.Converted`, and through it `DataSource.DataSource.Read`, uses the corrected Number-to-Bool conversion (`Convert.NumberToBool`) and the corrected one-type-per-element tuple list (`Convert.TupleTypes`). The behaviour as written is `Convert.NumberToBoolAsWritten` and `Convert.BuildTupleTypesAsWritten`, and the Findings table shows where it differs: 2.5 and 2^63 convert to false, and a non-empty list or set never converts to a tuple. The rest of the model is thus built on what the code evidently means.
- Convert.TupleToCollection, Convert.ObjectToMap: for an empty tuple or an empty object, `CollapseTypes` returns nil and Go hands that nil element type to the collection constructor. No `Type` value stands for nil, so the model puts `Dynamic` in its place.
- Convert.NumberConversions: integers are rendered as all their decimal digits, while `big.Float.String()` switches to exponent form beyond ten significant digits.
- Types.PlainTypeString: the Go code distinguishes the value form and the pointer form of each type (tftypes/check.go:9-62); the model has one form, so every kind test accepts both by construction.
- JsonType.JSONImpliedType: the decoder's own syntax checks (commas, colons, the spelling of literals) are not modelled, and any token sequence is accepted as input. So the unsupported-token branch (tftypes/tfgoja/json_type.go:92-93) cannot be reached.
- `EnsurePointer` and `IgnoreDiagnostics` (tftypes/helpers.go:11-28, 48-52) are reflection and diagnostics plumbing with no behaviour of their own in the model.
- `allocateType` and `JSArgument.Allocate` (internal/functions/argument.go:127-250) build Go zero values by reflection; they are not part of this model.
- The error text of `extractArgNames` and of the other errors is reduced to a constructor per message; the wording is not modelled.
- JsRuntime.JavaScriptRuntime.Functions: the order of the returned list is left open, as Go's map walk leaves it.
- Framework plumbing (`Metadata`, `Schema`, the `Definition`/`Run` wrappers of internal/runtime/function.go and internal/functions/function.go), internal/provider/provider.go, internal/provider/library.go, internal/getter/getter.go and internal/provider/logger.go are not part of this model.

## Findings

| source | as written | input that shows it | evidently intended | confidence | as-written member | corrected member |
|---|---|---|---|---|---|---|
| tftypes/tfconvert/tfconvert.go:140-146 | `make([]attr.Type, len(elems))` followed by one `append` per element builds 2n element types, n of them nil, so `NewTupleValue` refuses every non-empty list or set converted to a tuple (the same code for sets at lines 162-168) | any list or set with at least one element, converted to a tuple type | one element type per element: `make([]attr.Type, 0, n)` | not executed | Convert.BuildTupleTypesAsWritten | Convert.BuildTupleTypes |
| tftypes/tfconvert/tfconvert.go:83-84 | the fallback of the Number-to-Bool converter returns true when the float is within the tolerance of zero, which inverts the test; an integer outside int64 always takes the fallback and gives false | the numbers 2.5 and 2^63, both nonzero, convert to false | true exactly for a nonzero number | not executed | Convert.NumberToBoolAsWrittenMisses | Convert.NumberToBoolIsNonZero |
