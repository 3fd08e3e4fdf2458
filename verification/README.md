# build-info in Dafny

A model of the compile-time core of the `build-info` Rust workspace and of
its predecessor `versionator`.

A build script collects a snapshot of the build. The snapshot holds:
- the crate and its dependency tree;
- the compiler;
- version control;
- the build timestamp;
- the profile and the target.

Procedural macros render or re-emit that snapshot at compile time. The model
covers the parts of that pipeline that are pure logic:

- **The `build_info::format!` macro.** The argument parser turns a token
  stream into expressions (`$`, literals, parentheses, and the suffixes `?`,
  `.field`, `.N`, `[index]`, `.method(args)`). The evaluator maps each
  suffix to an operation call on a closed set of value kinds. The template
  scanner interpolates `{}`, `{N}`, `{:?}` and `{:#?}` placeholders, with
  `{{`/`}}` escapes, fatal aborts and one collected diagnostic per unused
  argument.
- **The value model.** Booleans, characters, integers, strings, options and
  vectors, and the snapshot records, each with its operation vocabulary,
  field table, type tag and Default/Debug renderings. It includes the
  `concat!`, `env!` and `option_env!` directives.
- **The `Display` renderings** of the snapshot records, and the type-tag
  names used in error messages.
- **The older revisions:**
  - the monolithic value model of `format/value.rs`;
  - the path-walking renderer `IndexedStringValue`;
  - the versionator template scanner and its two path renderers;
  - the versionator trace parser and path selection into initialiser tokens.
- **The constructor-code serialisers** (`InitValue`, both revisions). Each
  round-trip lemma reads the emitted token tree back with a reader written
  for the purpose.
- **The build-script side:**
  - the once-only `BuildScriptOptions` state machine;
  - the `SOURCE_DATE_EPOCH` timestamp selection;
  - the target description read from Cargo's environment variables;
  - the versioned-string check;
  - the `dependency-tree` example's tree printer.

Conventions used throughout:

- **Failures.** Results are `Result` values. A failure is an ordinary error
  (`anyhow`, which callers may turn into an abort), a `Panic`, or an
  `Abort` that carries the fatal diagnostics.
- **Host facts.** Facts the core takes from the standard library or the
  host are passed in as parameters: Unicode `is_alphabetic`, case mapping,
  derived `Debug` layouts, whether debug assertions are on, the process
  environment, the clock, and the chrono nanosecond conversion.
- **Spans.** The parsed trees carry no span. In the system, node metadata
  holds a span, but equality, ordering and hashing ignore it
  (`build-info-proc/src/format/syntax.rs:13-35`). Dropping the span gives
  the model the same notion of equality.

## Model

| member | source | states |
|---|---|---|
| Scanner.DigitPrefix | build-info-proc/src/format/mod.rs:107-117 | the explicit position is the maximal run of ASCII digits at the start of the placeholder |
| Scanner.ParseSpec | build-info-proc/src/format/mod.rs:148-166 | a spec that does not start with `:` is Default and consumes nothing; the only failure is the unmatched-`{` abort when input runs out |
| Scanner.Placeholder | build-info-proc/src/format/mod.rs:97-185 | a placeholder always consumes input and never fails with an ordinary error, only with an abort or a panic |
| Scanner.Scan | build-info-proc/src/format/mod.rs:52-83 | scanning fails only by abort or panic, never with an ordinary error |
| Scanner.UnusedFrom | build-info-proc/src/format/mod.rs:85-92 | exactly the indices never marked used, each once, in increasing order |
| Scanner.Interpolate | build-info-proc/src/format/mod.rs:45-95 | the unused indices it reports are valid argument indices in strictly increasing order |
| Scanner.UnusedMessages | build-info-proc/src/format/mod.rs:85-92 | one "Parameter i is not used" diagnostic per unused index, in the same order |
| ScannerLaws.ScanEscaped | build-info-proc/src/format/mod.rs:52-83 | a text with every brace doubled scans to the text itself; arguments and counter are untouched |
| ScannerLaws.EscapeRoundTrip | build-info-proc/src/format/mod.rs:45-95 | interpolating an escaped text yields the text, and every argument is reported unused, in index order |
| ScannerLaws.UnusedFromNothing | build-info-proc/src/format/mod.rs:85-92 | with nothing used, every index from i to n is reported, in order |
| ScannerLaws.PlainTextCopied | build-info-proc/src/format/mod.rs:80-82 | text without braces is copied unchanged and in order |
| ScannerLaws.ScanPrefix | build-info-proc/src/format/mod.rs:52-83 | a brace-free prefix is copied, then scanning continues on the rest from the extended output |
| ScannerLaws.UnmatchedCloseAborts | build-info-proc/src/format/mod.rs:70-79 | a `}` not followed by `}` aborts with the unmatched-`}` message |
| ScannerLaws.OpenAtEndAborts | build-info-proc/src/format/mod.rs:53-56 | a `{` at the end of the template aborts with the unmatched-`{` message |
| ScannerLaws.NamedArgumentAborts | build-info-proc/src/format/mod.rs:118-123 | a placeholder starting with an alphabetic character aborts as an unsupported keyword argument |
| ScannerLaws.DigitPrefixOf | build-info-proc/src/format/mod.rs:107-117 | the digit run of `d + tail` is exactly `d` when the tail starts with a non-digit |
| ScannerLaws.SpecOf | build-info-proc/src/format/mod.rs:148-166 | `""`, `:?` and `:#?` select Default, Debug and DebugAlt, and the spec ends at the closing brace |
| ScannerLaws.ResolveMode | build-info-proc/src/format/mod.rs:125-184 | the selected argument is rendered in the selected mode and marked used; an explicit position leaves the counter alone and an implicit one advances it by one; an out-of-range index aborts with the matching message |
| ScannerLaws.PlaceholderStep | build-info-proc/src/format/mod.rs:53-69 | `{` followed by anything but `{` resolves one placeholder, then scanning resumes after it |
| ScannerLaws.ExplicitPlaceholder | build-info-proc/src/format/mod.rs:107-133 | `{N…}` renders argument N, marks it used and keeps the implicit counter; N at or beyond the argument count aborts |
| ScannerLaws.ImplicitPlaceholder | build-info-proc/src/format/mod.rs:134-146 | `{…}` without a position renders the argument at the counter, marks it used and increments the counter by one; a counter at or beyond the count aborts |
| ScannerLaws.ResolveAlternate | build-info-proc/src/format/mod.rs:168-178 | `:#` without `?` panics when debug assertions are on and otherwise behaves like Default |
| ScannerLaws.AlternateWithoutDebug | build-info-proc/src/format/mod.rs:168-178 | `{:#}` panics under debug assertions and otherwise equals `{}` |
| ScannerLaws.UnexpectedCharacterAborts | build-info-proc/src/format/mod.rs:179-184 | any other character before the closing brace aborts, naming the character |
| ScannerLaws.UnexpectedCharacterResolves | build-info-proc/src/format/mod.rs:179-184 | resolving a spec that starts with neither `}` nor `:` aborts with the unexpected-character message |
| ScannerLaws.ScanHoles | build-info-proc/src/format/mod.rs:134-146 | k implicit holes render the next k arguments in order, mark exactly them used, and stop at the first failing rendering |
| ScannerLaws.UnusedFromAllUsed | build-info-proc/src/format/mod.rs:85-92 | no diagnostic is emitted when every index is used |
| ScannerLaws.AllArgumentsUsed | build-info-proc/src/format/mod.rs:45-95 | one `{}` per argument renders all arguments in order and reports none unused |
| ScannerLaws.UnusedReported | build-info-proc/src/format/mod.rs:85-92 | an index is reported iff it is a valid index the scan never used; reports are strictly increasing |
| FormatMacro.AbortOnError | build-info-proc/src/format/mod.rs:25-26 | an evaluation error becomes a call-site abort; aborts and panics pass through unchanged |
| FormatMacro.Expand | build-info-proc/src/format/mod.rs:28-35 | no arguments print the snapshot's Display string; a first argument that is not a string aborts |
| FormatMacro.FormatMacro | build-info-proc/src/format/mod.rs:23-40 | the macro never ends in a bare ordinary error; its arguments go through the corrected evaluator, whose `[index]` sends `!array_index` (see Left out and Findings) |
| FormatMacro.NoArgumentsPrintSnapshot | build-info-proc/src/format/mod.rs:28-29 | `format!()` expands to the snapshot's Display string with no diagnostics |
| FormatMacro.EvaluationFailureAborts | build-info-proc/src/format/mod.rs:23-26 | the first failing argument's error becomes the macro's abort |
| FormatMacro.TemplateIsFirstArgument | build-info-proc/src/format/mod.rs:28-35 | the first value is the template and the remaining values are its arguments |
| FormatMacro.ProfileExample | build-info-proc/src/format/mod.rs:23-40 | `format!("{}", $.profile)` expands to the profile, with no diagnostics |
| FormatMacro.SingleHole | build-info-proc/src/format/mod.rs:45-95 | `"{}"` with one string argument yields that string and leaves nothing unused |
| Syntax.ParseArguments | build-info-proc/src/format/syntax.rs:81-88 | empty input is zero arguments; otherwise one expression per comma plus one, and a trailing comma is an error |
| Syntax.ParseTrailing | build-info-proc/src/format/syntax.rs:98-104 | after the first argument, each further argument needs a leading comma, and a trailing comma is an error |
| Syntax.ParseExpr | build-info-proc/src/format/syntax.rs:141-186 | an expression stops at the end of input or at a top-level comma, and never consumes a comma |
| Syntax.ParseSuffixes | build-info-proc/src/format/syntax.rs:145-184 | the suffix chain consumes no comma and stops before one |
| Syntax.ParseSuffix | build-info-proc/src/format/syntax.rs:146-181 | one suffix consumes at least one token and no comma |
| Syntax.ParseMember | build-info-proc/src/format/syntax.rs:153-173 | what follows a `.` consumes at least two tokens and no comma |
| Syntax.ExprRoundTrip | build-info-proc/src/format/syntax.rs:141-186 | parsing a printed expression gives back the expression and consumes exactly its tokens |
| Syntax.AtomRoundTrip | build-info-proc/src/format/syntax.rs:106-139 | `$`, unsuffixed integer literals, string literals and parenthesised expressions parse back to the atom printed |
| Syntax.GroupRoundTrip | build-info-proc/src/format/syntax.rs:112-118 | a parenthesised group holds exactly one expression |
| Syntax.SuffixesRoundTrip | build-info-proc/src/format/syntax.rs:145-184 | suffixes are read back in source order, and parsing stops where the printed chain ends |
| Syntax.SuffixParsed | build-info-proc/src/format/syntax.rs:150-178 | `?`, `.ident`, `.N`, `[e]` and `.ident(args)` become Unwrap, Field, TupleIndex, ArrayIndex and FunctionCall |
| Syntax.ArgsRoundTrip | build-info-proc/src/format/syntax.rs:81-88 | comma-separated printed arguments parse back to the same list |
| Syntax.TrailingRoundTrip | build-info-proc/src/format/syntax.rs:98-104 | comma-prefixed printed arguments parse back to the same list |
| Syntax.SyntaxRoundTrip | build-info-proc/src/format/syntax.rs:73-79 | `ParseSyntax`: the macro input parser inverts the printer on every well-formed argument list |
| Syntax.FormatSuffixesExample | build-info-proc/src/format/syntax.rs:232-259 | the upstream test input parses to the expected tree, suffixes in source order |
| Syntax.TrailingCommaRejected | build-info-proc/src/format/syntax.rs:261-267 | any input ending in a comma is a parse error |
| Tokens.LexIntLiteralRoundTrip | build-info-proc/src/format/syntax.rs:119-130 | a decimal literal with a type suffix reads back as its value and suffix |
| Tokens.HexLiteralExample | build-info-proc/src/format/syntax.rs:249-252 | `0x0_C` reads as 12 with no suffix |
| Eval.AtomMeaning | build-info-proc/src/format/eval.rs:11-20 | `Evaluate` on a bare atom: literals evaluate to themselves, `$` to the snapshot, and parentheses to their inner expression |
| Eval.SuffixOnResult | build-info-proc/src/format/eval.rs:24-51 | `EvalExpr`: a further suffix is applied to the previous result, and a failure stops evaluation |
| Eval.ApplySuffixesAppend | build-info-proc/src/format/eval.rs:24-51 | applying `xs + ys` is applying xs, then ys to the result, stopping at the first failure |
| Eval.SuffixOperators | build-info-proc/src/format/eval.rs:28-37 | Unwrap calls `?` with no arguments, Field calls `!field` with the name, TupleIndex calls `!tuple_index` with the integer |
| Eval.EvalArgsFirstFailure | build-info-proc/src/format/eval.rs:42-48 | the argument list evaluates iff every argument does, and a failure is the first failing argument's |
| Eval.MethodCallArguments | build-info-proc/src/format/eval.rs:42-48 | the arguments of a method call are fully evaluated before the call is dispatched |
| Eval.IndexAsWrittenFails | build-info-proc/src/format/eval.rs:38-41 | the operator name eval.rs passes for `[i]` is not one the vector answers, so indexing fails |
| Eval.IndexCorrected | build-info-proc/src/format/value/mod.rs:76-78 | with the `!array_index` operator, `[i]` on a vector returns element i |
| Eval.AuthorsOf | build-info-proc/src/format/eval.rs:31-33 | `$.crate_info.authors` evaluates to the author list |
| Eval.AuthorIndexing | build-info-proc/src/format/eval.rs:38-41 | `$.crate_info.authors[i]` yields author i with the corrected operator and fails as written |
| Eval.Evaluate | build-info-proc/src/format/eval.rs:24-51 | the corrected evaluator; on every expression without an `[index]` suffix it gives the same value or failure as the evaluator as written |
| Eval.EvalAsWritten | build-info-proc/src/format/eval.rs:38-41 | the evaluator as written; on every expression without an `[index]` suffix it gives the same value or failure as the corrected one |
| Eval.IndexOperatorUnused | build-info-proc/src/format/eval.rs:24-51 | the operator name sent for `[index]` does not change the value of an expression that has no `[index]`, arguments and parentheses included |
| Macros.ConcatFrom | build-info-proc/src/format/value/macros.rs:9-24 | the reported indices are exactly the non-string arguments, in increasing order |
| Macros.ConcatOfStrings | build-info-proc/src/format/value/macros.rs:9-24 | `concat!` of strings is their in-order concatenation |
| Macros.ConcatReportsNonStrings | build-info-proc/src/format/value/macros.rs:12-22 | each non-string argument is reported by index, then the call aborts |
| Macros.EnvLookup | build-info-proc/src/format/value/macros.rs:25-28 | `env!` returns a defined variable's value and aborts on an undefined one |
| Macros.OptionEnvLookup | build-info-proc/src/format/value/macros.rs:30-34 | `option_env!` returns Some(value) or None and never aborts |
| Macros.EnvArguments | build-info-proc/src/format/value/macros.rs:25-34 | both directives need exactly one string argument, otherwise they fail with an ordinary error |
| Macros.CallMacro | build-info-proc/src/format/value/macros.rs:35-49 | every directive other than concat, env and option_env aborts, naming the macro |
| Macros.CallFunction | build-info-proc/src/format/value/functions.rs:7-12 | every free-function call aborts with one diagnostic |
| Macros.CallMacroOlder | build-info-proc/src/format/eval/macros.rs:7-21 | the older `call_macro` aborts on every macro, whatever its arguments, with the one message naming it |
| Macros.OlderMacrosAbort | build-info-proc/src/format/eval/macros.rs:7-21 | the older `call_macro` gives the newer one's result on every macro other than concat, env and option_env, and aborts on a `concat!` of strings that the newer one evaluates |
| Types.TypeNameRoundTrip | build-info-proc/src/format/types.rs:27-45 | `TypeName`: every type name reads back as the tag it was printed from |
| Types.TypeNameInjective | build-info-proc/src/format/types.rs:27-45 | `TypeName`: distinct tags print under distinct names |
| Values.TypeOf | build-info-proc/src/format/value/vec.rs:21-23 | a vector reports the Option tag, CPU and target records report CompilerInfo, and a date reports DateTimeUtc |
| Values.AsFieldName | build-info-proc/src/format/value/mod.rs:80-90 | the operand is the one string argument; anything else panics |
| Values.AsIndex | build-info-proc/src/format/value/mod.rs:92-104 | the operand is the one integer argument within usize; anything else panics |
| Values.AsArguments0 | build-info-proc/src/format/value/mod.rs:106-112 | succeeds iff the argument list is empty, otherwise a count error |
| Values.AsSimpleArguments1 | build-info-proc/src/format/value/mod.rs:114-123 | succeeds iff there is exactly one argument of the requested kind, distinguishing count and type errors |
| Values.AsNamedArguments1 | build-info-proc/src/format/value/mod.rs:125-141 | as the simple variant, and a named single argument is rejected |
| Values.CallBase | build-info-proc/src/format/value/mod.rs:37-56 | always fails: an unknown field names field and type, tuple and array indexing are unsupported, and other calls name the function and type |
| Values.CompilerInfoDisplay | build-info-common/src/display.rs:32-47 | the compiler record renders iff its commit id can be cut at byte 9; otherwise it panics with std's slicing message for byte 9 of that commit id |
| Values.Field | build-info-proc/src/format/value/mod.rs:39-46 | a field lookup succeeds exactly for the names in the kind's field table |
| Values.BuildInfoField | build-info-proc/src/format/value/build_info.rs:14-21 | the build record answers exactly its six field names |
| Values.CrateInfoField | build-info-proc/src/format/value/crate_info.rs:13-21 | the crate record answers exactly its field names |
| Values.CompilerInfoField | build-info-proc/src/format/value/compiler_info.rs:10-16 | the compiler record answers exactly its field names |
| Values.GitInfoField | build-info-proc/src/format/value/git_info.rs:10-17 | the Git record answers exactly its field names |
| Values.CpuInfoField | build-info-proc/src/format/value/cpu_info.rs:11-16 | the CPU record answers exactly its field names |
| Values.TargetInfoField | build-info-proc/src/format/value/target_info.rs:10-15 | the target record answers exactly its field names |
| Values.VersionField | build-info-proc/src/format/value/semver/version.rs:14-20 | a version answers exactly major, minor, patch, pre and build |
| Values.Format | build-info-proc/src/format/value/build_info.rs:39-45 | rendering in any mode fails only by panic |
| Values.ToStringCall | build-info-proc/src/format/value/bool.rs:8-11 | `to_string` succeeds iff it has no arguments, and then yields the rendering |
| Values.NullaryCall | build-info-proc/src/format/value/version_control.rs:13-16 | a zero-argument operation yields its result iff no argument is given |
| Values.FormatDebug | build-info-proc/src/format/value/bool.rs:49-72 | Debug rendering never fails |
| Values.FormatDefault | build-info-proc/src/format/value/vec.rs:31-41 | Default rendering fails only by panic |
| Values.FormatAll | build-info-proc/src/format/value/vec.rs:31-41 | renders every element, one string each, and fails only by panic |
| ValueLaws.CallFallsThrough | build-info-proc/src/format/value/mod.rs:58-60 | `Values.Call`: any operation outside a kind's vocabulary is answered by `call_base` and fails |
| ValueLaws.ToStringIsDefault | build-info-proc/src/format/value/build_info.rs:22-45 | `Values.Call` with `to_string`: `to_string()` yields the Default rendering, or fails as it does |
| ValueLaws.ToStringTakesNoArguments | build-info-proc/src/format/value/mod.rs:106-112 | `to_string` with any argument fails with a count error |
| ValueLaws.FieldAccess | build-info-proc/src/format/value/mod.rs:39-46 | `!field` succeeds exactly for the kind's field names, and an unknown name fails naming field and type |
| ValueLaws.TargetTripleHidden | build-info-proc/src/format/value/compiler_info.rs:10-16 | `target_triple` is not a field of the compiler record |
| ValueLaws.BuildInfoFields | build-info-proc/src/format/value/build_info.rs:14-21 | the build record's fields return the snapshot's own values |
| ValueLaws.GitInfoFields | build-info-proc/src/format/value/git_info.rs:10-17 | `dirty` is a bool, `branch` an option and `tags` a vector of the record's values |
| ValueLaws.VersionFields | build-info-proc/src/format/value/semver/version.rs:15-19 | major, minor and patch are integers equal to the version's numbers; pre and build are their renderings |
| ValueLaws.CpuInfoFields | build-info-proc/src/format/value/cpu_info.rs:11-15 | `pointer_width` is an integer and `endianness` the record's endianness |
| ValueLaws.FieldOperandPanics | build-info-proc/src/format/value/mod.rs:80-90 | `!field` without exactly one string operand panics |
| ValueLaws.BoolRendering | build-info-proc/src/format/value/bool.rs:41-72 | true and false render as "true" and "false" in all three modes and through `to_string` |
| ValueLaws.CharRendering | build-info-proc/src/format/value/char.rs:43-69 | Default renders the character itself; Debug and DebugAlt quote it |
| ValueLaws.CharExample | build-info-proc/src/format/value/char.rs:43-57 | `'a'` renders as `a` and as `'a'` |
| ValueLaws.StringMethods | build-info-proc/src/format/value/string.rs:12-43 | `is_empty` iff length 0, `len` is the UTF-8 length (the character count for ASCII), `to_string` is the identity, Default is verbatim |
| ValueLaws.StringTrimIdempotent | build-info-proc/src/format/value/string.rs:32-43 | `trim` leaves no whitespace at either end, and trimming again changes nothing |
| ValueLaws.StringTrim | build-info-proc/src/format/value/string.rs:32-43 | `trim` is `trim_start` after `trim_end` |
| ValueLaws.StringMethodsTakeNoArguments | build-info-proc/src/format/value/string.rs:13-41 | every string method fails with a count error when given arguments |
| ValueLaws.OptionUnwrap | build-info-proc/src/format/value/option.rs:11-31 | `?` unwraps Some and fails on None; None renders "None", and Some renders as its content |
| ValueLaws.ListOperations | build-info-proc/src/format/value/vec.rs:12-23 | `len` is the element count; an in-range index returns the element and an out-of-range one panics with std's "index out of bounds: the len is L but the index is I" |
| ValueLaws.ListIndexNotInteger | build-info-proc/src/format/value/mod.rs:92-104 | a non-integer index panics |
| ValueLaws.NaturalJoinPrefixIsJoin | build-info-proc/src/format/value/vec.rs:32-40 | before the last element, the separators are all `", "` |
| ValueLaws.NaturalJoinShape | build-info-proc/src/format/value/vec.rs:31-41 | no elements give "", one gives itself, and more give the `", "`-joined init, then `" and "`, then the last |
| ValueLaws.NaturalJoinExamples | build-info-proc/src/format/value/vec.rs:31-41 | [], [a], [a,b] and [a,b,c] render as "", "a", "a and b" and "a, b and c" |
| ValueLaws.FormatAllElementwise | build-info-proc/src/format/value/vec.rs:31-41 | a vector renders iff every element renders in Default mode, element by element |
| ValueLaws.ListOfStrings | build-info-proc/src/format/value/vec.rs:31-41 | a vector of strings renders as their natural-language join |
| ValueLaws.VersionControlBehaviour | build-info-proc/src/format/value/version_control.rs:11-39 | `git()` yields Some(git record) and takes no arguments; rendering equals the Git record's; there are no fields |
| Common.BuildInfoString | build-info-common/src/display.rs:1-11 | `"<crate> <profile> build"`, followed by `" from <git>"` iff version control is present |
| Common.OptimizationLevelString | build-info-common/src/display.rs:13-24 | each level renders as one character |
| Common.OptimizationLevelRoundTrip | build-info-common/src/display.rs:13-24 | the rendering reads back as the level, and only that string does |
| Common.CrateInfoString | build-info-common/src/display.rs:26-30 | `"<name> v<version>"` |
| Common.CompilerInfoString | build-info-common/src/display.rs:32-47 | without a commit id exactly `"rustc <version>"`; with one, `"rustc <version>"` followed by ` (`, the id's first nine bytes, ` <commit date>` when a date is known, and `)`, absent (a panic) iff the id cannot be cut at byte 9 |
| Common.CompilerInfoStringAsciiCommit | build-info-common/src/display.rs:32-47 | an ASCII commit id of at least nine characters always renders |
| Common.VersionControlString | build-info-common/src/display.rs:49-55 | version control renders exactly as its Git record |
| Common.GitInfoString | build-info-common/src/display.rs:57-71 | starts with the commit id; two more characters iff dirty |
| Common.GitOf | build-info-common/src/lib.rs:138-145 | `git()` is Some for every value |
| Common.CompilerChannelStringInjective | build-info-common/src/lib.rs:123-129 | `CompilerChannelString`: the four channel names are distinct |
| Common.VersionString | build-info-proc/src/format/value/semver/version.rs:22-25 | starts with `M.m.p` and is exactly that iff there are neither pre-release nor build identifiers; the character after the core is `-` when pre-release identifiers exist and `+` when only build identifiers do |
| Common.VersionStringLayout | build-info-proc/src/format/value/semver/version.rs:22-25 | `M.m.p`, then `-` and the dot-joined pre-release identifiers iff there are any, then `+` and the dot-joined build identifiers iff there are any; each part sits at its stated position and the length is the sum of the parts |
| Common.VersionCoreRoundTrip | build-info-proc/src/format/value/semver/version.rs:22-25 | `VersionCore`: the `M.m.p` core reads back as the three numbers |
| Common.DisplayedSecond | build-info-proc/src/format/value/chrono/date_time.rs:17-20 | `%S` shows the stored second, or the next one (60 at the end of a minute) for a leap second |
| Common.TimestampRoundTrip | build-info-proc/src/format/value/chrono/date_time.rs:17-20 | `TimestampString`: the 20-character timestamp reads back as the date and time, minus sub-seconds; a leap second reads back as the second after it |
| Common.TimestampLayout | build-info-proc/src/format/value/chrono/date_time.rs:17-20 | `TimestampString`: `%Y-%m-%d %H:%M:%SZ` with zero-padded fields at fixed positions |
| Common.LeapSecondRendering | build-info-proc/src/format/value/chrono/date_time.rs:17-20 | a leap second after second 59 prints as `60` |
| Common.YearString | build-info-proc/src/format/value/chrono/date_time.rs:17-20 | years 0..9999 render as four digits of their value, with a sign outside that range |
| Common.DateLayout | build-info-proc/src/format/value/chrono/naive_date.rs:16-19 | `%Y-%m-%d`: four year digits and two-digit month and day at fixed positions |
| Common.TwoDigits | build-info-proc/src/format/value/chrono/date_time.rs:17-20 | values below 100 render as two digits of their value |
| Text.TrimProperties | build-info-proc/src/format/value/string.rs:32-43 | the trimmed string has no whitespace at either end and is its own trim |
| Text.TrimOrderIrrelevant | build-info-proc/src/format/value/string.rs:32-43 | trimming the end first or the start first gives the same string |
| Text.AsciiUtf8Length | build-info-proc/src/format/value/string.rs:16-19 | the UTF-8 length of an ASCII string is its character count |
| Text.BytePrefix | build-info-common/src/display.rs:37 | the prefix with exactly n UTF-8 bytes, absent iff no character boundary lies at byte n |
| Text.ParseIntToString | build-info-build/src/build_script_options/timestamp.rs:33 | `str::parse` reads back every in-range integer from its decimal rendering, a `-` sign only for signed types |
| Text.FloorPrefixIsBytePrefix | build-info-common/src/display.rs:37 | the longest prefix within a byte budget is the byte prefix whenever the cut falls on a character boundary |
| Text.SlicePanicOutOfBounds | build-info-common/src/display.rs:37 | cutting a short commit id at byte 9 panics with "byte index 9 is out of bounds of `id`" |
| Text.SlicePanicInsideChar | build-info-common/src/display.rs:37 | cutting inside a multi-byte character panics with "byte index 9 is not a char boundary; it is inside 'c' (bytes a..b) of `id`", naming the character and its byte range |
| ValueLaws.ShortCommitPanics | build-info-common/src/display.rs:37 | a compiler record whose ASCII commit id is shorter than nine bytes panics with "byte index 9 is out of bounds of `id`" |
| LegacyValues.TypeOf | build-info-proc/src/format/value.rs:234-272 | a vector reports the Option tag; identifiers report Version; dates report DateTimeUtc |
| LegacyValues.AsFieldName | build-info-proc/src/format/value.rs:15-25 | the operand is the one string argument; anything else panics |
| LegacyValues.AsIndex | build-info-proc/src/format/value.rs:27-39 | the operand is the one integer argument within usize; anything else panics |
| LegacyValues.AsArguments0 | build-info-proc/src/format/value.rs:41-47 | succeeds iff the argument list is empty |
| LegacyValues.AsArguments1 | build-info-proc/src/format/value.rs:50-59 | succeeds iff there is exactly one argument of the requested kind |
| LegacyValues.AsArguments2AsWritten | build-info-proc/src/format/value.rs:62-77 | as written: a wrong count reports "1 argument", and a mistyped second argument names the first type |
| LegacyValues.AsArguments2 | build-info-proc/src/format/value.rs:62-77 | succeeds iff there are two arguments of the requested kinds; errors name the count 2 and the right type |
| LegacyValues.AsArguments2CountMessage | build-info-proc/src/format/value.rs:62-67 | for a wrong count, the as-written helper reports 1 where 2 is meant |
| LegacyValues.AsArguments2TypeMessage | build-info-proc/src/format/value.rs:68-77 | for a mistyped second argument, the as-written helper names the first argument's type |
| LegacyValues.CallBase | build-info-proc/src/format/value.rs:87-106 | always fails, with the unknown-field, tuple-index, index or not-callable error |
| LegacyValues.Call | build-info-proc/src/format/value.rs:478-494 | a date overrides no call, so every call on it is `call_base` |
| LegacyValues.Format | build-info-proc/src/format/value.rs:487-493 | fails only by panic, and Debug modes use the derived layout |
| LegacyValues.FormatList | build-info-proc/src/format/value.rs:254-267 | the list rendering from element i fails only by panic |
| LegacyValues.CompilerInfoDisplay | build-info-proc/src/format/value.rs:356-359 | `to_string` on a compiler record in the older value model is its `Display` string, and panics, with std's slicing message, exactly when the commit id cannot be cut at byte 9 |
| LegacyLaws.ToStringTakesNoArguments | build-info-proc/src/format/value.rs:120-128 | `to_string` yields the rendering with no arguments and a count error with any |
| LegacyLaws.OptionBehaviour | build-info-proc/src/format/value.rs:203-232 | `?` unwraps Some and fails on None; None renders "None", and Some renders as its content |
| LegacyLaws.ListOperations | build-info-proc/src/format/value.rs:234-246 | the index operator returns the element or panics out of range with std's "index out of bounds: the len is L but the index is I"; `len` is the count |
| LegacyLaws.CrateFields | build-info-proc/src/format/value.rs:310-327 | the crate record has exactly the fields name, version and authors |
| LegacyLaws.DateTimeBehaviour | build-info-proc/src/format/value.rs:478-494 | every call on a date fails; Default is `%Y-%m-%d %H:%M:%SZ` |
| LegacyLaws.StringRendersItself | build-info-proc/src/format/value.rs:194-200 | a string renders verbatim |
| LegacyLaws.FormatListStrings | build-info-proc/src/format/value.rs:254-267 | the loop-style list rendering completes the natural-language join from any starting element |
| LegacyLaws.ListRenderingAgrees | build-info-proc/src/format/value.rs:254-267 | both revisions render a vector of strings identically |
| IndexedStringValue.Leaf | build-info-proc/src/format/indexed_string_value.rs:131-173 | a leaf renders iff the path is empty, and any step panics naming the type |
| IndexedStringValue.OptionAt | build-info-proc/src/format/indexed_string_value.rs:73-92 | empty path: None is "UNKNOWN", Some renders its content; `?` continues into Some and panics on None; other steps panic |
| IndexedStringValue.VecAt | build-info-proc/src/format/indexed_string_value.rs:175-194 | empty path joins the elements; `len()` continues on the length; other steps panic |
| IndexedStringValue.EmptyPathDisplays | build-info-proc/src/format/indexed_string_value.rs:17-49 | an empty path renders each record's Display string |
| IndexedStringValue.CompilerInfoDisplay | build-info-proc/src/format/indexed_string_value.rs:94-111 | the compiler record with an empty path renders its Display string or panics as Display does |
| IndexedStringValue.UnlistedStepsPanic | build-info-proc/src/format/indexed_string_value.rs:17-129 | a step outside a record's field list panics naming the record's type |
| IndexedStringValue.FieldStepsDescend | build-info-proc/src/format/indexed_string_value.rs:17-33 | each build-record field continues with the rest of the path on that field's value |
| IndexedStringValue.VersionControlField | build-info-proc/src/format/indexed_string_value.rs:216-222 | absent version control renders "UNKNOWN" and panics on `?`; present version control is its Git record |
| IndexedStringValue.IdentifierTransparent | build-info-proc/src/format/indexed_string_value.rs:196-203 | an identifier delegates to its number or string with the same path |
| IndexedStringValue.FoldJoinIsJoin | build-info-proc/src/format/indexed_string_value.rs:175-194 | the fold of the renderer equals joining with `", "` |
| IndexedStringValue.VecRendering | build-info-proc/src/format/indexed_string_value.rs:175-194 | a vector renders as its `", "` join, and `len()` as its length |
| IndexedStringValue.ListRenderingsDiffer | build-info-proc/src/format/indexed_string_value.rs:175-194 | two elements join with `", "` here and with `" and "` in the format macro |
| Timestamp.FromNanos | build-info-build/src/build_script_options/timestamp.rs:20-23 | a valid instant with exactly the given nanoseconds since the epoch |
| Timestamp.FromEpoch | build-info-build/src/build_script_options/timestamp.rs:56-59 | a whole-second instant at the given epoch seconds |
| Timestamp.TimestampFor | build-info-build/src/build_script_options/timestamp.rs:32-36 | none falls back to now; an i64 epoch gives that whole second; anything else panics |
| Timestamp.BuildTimestamp | build-info-build/src/timestamp.rs:31-35 | `SOURCE_DATE_EPOCH` decides the timestamp when set, the clock otherwise |
| Timestamp.NanosRoundTrip | build-info-build/src/build_script_options/timestamp.rs:56-59 | nanosecond conversion and instant construction are inverse |
| Timestamp.EpochIsWholeNanos | build-info-build/src/timestamp.rs:53-59 | epoch seconds are the same instant as that many whole seconds of nanoseconds |
| Timestamp.RenderedEpochRoundTrip | build-info-build/src/build_script_options/timestamp.rs:32-34 | a rendered i64 epoch gives back that whole second |
| BuildScriptOptions.Default | build-info-build/src/build_script_options/mod.rs:90-99 | the first construction gives unconsumed options with no timestamp; a second one panics |
| BuildScriptOptions.WithTimestamp | build-info-build/src/build_script_options/timestamp.rs:10-13 | sets the timestamp and changes nothing else |
| BuildScriptOptions.WithTimestampNanos | build-info-build/src/build_script_options/timestamp.rs:20-23 | sets the timestamp to that many nanoseconds and changes nothing else |
| BuildScriptOptions.Profile | build-info-build/src/build_script_options/mod.rs:42 | `PROFILE`, or "UNKNOWN" when unset |
| BuildScriptOptions.OptLevel | build-info-build/src/build_script_options/mod.rs:43 | `OPT_LEVEL` is required and must be the rendering of a level |
| BuildScriptOptions.DropToBuildInfo | build-info-build/src/build_script_options/mod.rs:33-55 | refuses consumed options; otherwise marks them consumed, counts one generation, takes the profile or `UNKNOWN`, takes the parsed `OPT_LEVEL` (panicking first when it is missing or not a level), and uses the timestamp override when set, else the build timestamp, whose failure is the panic; it succeeds exactly when those lookups do |
| BuildScriptOptions.Drop | build-info-build/src/build_script_options/mod.rs:103-109 | generates iff the options were not consumed |
| BuildScriptOptions.Build | build-info-build/src/build_script_options/mod.rs:79-81 | consumes the options and generates once |
| BuildScriptOptions.DefaultOnlyOnce | build-info-build/src/build_script_options/mod.rs:90-93 | a second construction in the same process panics |
| BuildScriptOptions.GeneratesExactlyOnce | build-info-build/src/build_script_options/mod.rs:103-109 | explicit build and drop alike generate exactly once |
| BuildScriptOptions.ConsumedOptionsRefuse | build-info-build/src/build_script_options/mod.rs:33-35 | after generating, generating again is refused and dropping is a no-op |
| BuildScriptOptions.OverrideIgnoresEpoch | build-info-build/src/build_script_options/mod.rs:52 | a timestamp override wins over `SOURCE_DATE_EPOCH` and the clock |
| Target.VarOr | build-info-build/src/build_script_options/target.rs:5-9 | the variable's value, or the default when unset |
| Target.ParseEndianness | build-info-build/src/build_script_options/target.rs:14-21 | "little" and "big" map to Little and Big; anything else panics |
| Target.GetInfo | build-info-build/src/build_script_options/target.rs:1-30 | missing names become "UNKNOWN"; pointer width and endianness are required; features are the comma split |
| Target.RequiredVariables | build-info-build/src/build_script_options/target.rs:10-21 | the description exists iff pointer width parses and endianness is little or big |
| Target.NoFeaturesIsOneEmptyFeature | build-info-build/src/build_script_options/target.rs:22-26 | an unset or empty feature variable gives one empty feature |
| Target.FeaturesRoundTrip | build-info-build/src/build_script_options/target.rs:22-26 | comma-joined features split back into the same list |
| VersionedString.Versioned | build-info-common/src/versioned_string.rs:13-18 | stores the string unchanged, stamped with the crate's version |
| VersionedString.CheckAcceptsOwnVersion | build-info-common/src/versioned_string.rs:13-22 | `Check`: the check passes iff writer and reader versions are equal, so a crate always accepts its own |
| DependencyTree.Line | dependency-tree/src/main.rs:4-10 | the line starts with indent, name and `" v"` |
| DependencyTree.Tree | dependency-tree/src/main.rs:12-22 | the first line is the node's own, followed by its children |
| DependencyTree.Children | dependency-tree/src/main.rs:16-22 | a non-last child starts with `├──` and the last with `└──` |
| DependencyTree.Render | dependency-tree/src/main.rs:26 | the root is printed with empty indents |
| DependencyTree.PrintCrateInfo | dependency-tree/src/main.rs:1-28 | the printing loop appends exactly the pre-order rendering |
| DependencyTree.TreeSize | dependency-tree/src/main.rs:16-22 | one line per node |
| DependencyTree.TreeIndented | dependency-tree/src/main.rs:12-20 | every line below a node starts with that node's nesting indent |
| DependencyTree.ChildrenStep | dependency-tree/src/main.rs:12-20 | each child is printed with branch and continuation by its position |
| InitShapes.VariantRoundTrip | build-info-proc/src/function/init_value.rs:50-67 | a variant path reads back as the variant's name |
| InitShapes.SplitCommaSeparated | build-info-proc/src/function/init_value.rs:169-186 | splitting comma-separated elements at commas gives the elements back |
| InitShapes.ElementsRoundTrip | build-info-proc/src/function/init_value.rs:169-186 | comma-separated elements read back in order |
| InitShapes.WriteElements | build-info-proc/src/function/init_value.rs:169-186 | the first-flag loop emits commas only between elements |
| InitShapes.StructRoundTrip | build-info-proc/src/function/init_value.rs:17-47 | the type path and the `name: value,` fields read back in declaration order |
| InitShapes.OptionRoundTrip | build-info-proc/src/function/init_value.rs:156-167 | `Some(inner)` and `None` read back as the option |
| InitShapes.VecRoundTrip | build-info-proc/src/function/init_value.rs:169-186 | `vec![…]` reads back as its elements |
| InitShapes.StringRoundTrip | build-info-proc/src/function/init_value.rs:282-286 | `"lit".to_string()` reads back as the string |
| InitShapes.LiteralRoundTrips | build-info-proc/src/function/init_value.rs:264-280 | bool and integer literals read back as their values |
| InitShapes.UnwrapCallRoundTrip | build-info-proc/src/function/init_value.rs:235-242 | `path(args).unwrap()` reads back as its arguments |
| InitValue.LevelRoundTrip | build-info-proc/src/function/init_value.rs:50-67 | `LevelTokens`: each optimisation level emits the path to its own variant |
| InitValue.ChannelRoundTrip | build-info-proc/src/function/init_value.rs:139-154 | `ChannelTokens`: each channel emits the path to its own variant |
| InitValue.VersionTextRoundTrip | build-info-proc/src/function/init_value.rs:235-242 | `VersionTokens`: a version emits a parse of its own rendering |
| InitValue.NanosRoundTrip | build-info-proc/src/function/init_value.rs:244-251 | `DateTimeTokens`: a timestamp emits its nanoseconds |
| InitValue.DateRoundTrip | build-info-proc/src/function/init_value.rs:253-262 | `NaiveDateTokens`: a date emits its own year, month and day |
| InitValue.OptionalStringRoundTrip | build-info-proc/src/function/init_value.rs:156-167 | `OptionalStringTokens`: an optional string reads back unchanged |
| InitValue.StringsRoundTrip | build-info-proc/src/function/init_value.rs:169-186 | `StringsTokens`: a string vector reads back unchanged |
| InitValue.CrateInfoRoundTrip | build-info-proc/src/function/init_value.rs:69-104 | `CrateInfoTokens`: exactly the seven crate fields in order, each reading back as the record's value |
| InitValue.CompilerInfoRoundTrip | build-info-proc/src/function/init_value.rs:106-137 | `CompilerInfoTokens`: the compiler fields in order, each reading back as the record's value |
| InitValue.GitInfoRoundTrip | build-info-proc/src/function/init_value.rs:202-233 | `GitInfoTokens`: the six Git fields in order, each reading back as the record's value |
| InitValue.BuildInfoRoundTrip | build-info-proc/src/function/init_value.rs:17-48 | `BuildInfoTokens`: the snapshot's fields in order, each reading back as the snapshot's value |
| VersionatorInit.BuildInfoRoundTrip | versionator-proc/src/init_value.rs:17-45 | `BuildInfoTokens`: timestamp, crate_info, compiler and version_control in order, each the field's own serialisation |
| VersionatorInit.CrateInfoRoundTrip | versionator-proc/src/init_value.rs:47-67 | `CrateInfoTokens`: name and version, reading back as the record's |
| VersionatorInit.CompilerRoundTrip | versionator-proc/src/init_value.rs:69-105 | `CompilerTokens`: the six compiler fields in declaration order, each reading back |
| VersionatorInit.VersionControlRoundTrip | versionator-proc/src/init_value.rs:136-152 | `OptionalVersionControlTokens`: `VersionControl::Git(<git>)` inside an option, or `None` |
| VersionatorInit.GitRoundTrip | versionator-proc/src/init_value.rs:154-178 | `GitTokens`: hash, dirty flag and name in order, each reading back |
| VersionatorInit.VersionRoundTrip | versionator-common/src/to_tokens_ext.rs:30-39 | `VersionTokens`: a version emits a parse of its own rendering |
| VersionatorInit.NanosRoundTrip | versionator-proc/src/init_value.rs:192-202 | `DateTimeTokens`: a timestamp emits `nanos_to_utc` of its nanoseconds |
| VersionatorFormat.SkipWs | versionator-proc/src/format/mod.rs:85-94 | the rest after leading ASCII whitespace, absent iff only whitespace remains |
| VersionatorFormat.IdentSpan | versionator-proc/src/format/mod.rs:54-73 | the maximal run of identifier characters: `_` or what the host's Unicode `is_alphanumeric` accepts |
| VersionatorFormat.NextStep | versionator-proc/src/format/mod.rs:48-79 | one pass of the loop reads `?` or an identifier that starts with `_` or a letter (host `is_alphabetic`) and goes on with `_`, letters or digits (host `is_alphanumeric`), and leaves text behind it |
| VersionatorFormat.ReadTrace | versionator-proc/src/format/mod.rs:45-83 | reading a placeholder path always consumes input |
| VersionatorFormat.ReadTraceSteps | versionator-proc/src/format/mod.rs:45-83 | a successful read keeps the steps before it and appends only `?` or well-formed identifiers |
| VersionatorFormat.Prepend | versionator-proc/src/format/mod.rs:36 | literal text goes before the rendered rest, and failures pass through |
| VersionatorFormat.Escapes | versionator-proc/src/format/mod.rs:29-39 | `Interpolate`: `{{` emits `{`, and a lone `}` is copied verbatim |
| VersionatorFormat.LiteralUnchanged | versionator-proc/src/format/mod.rs:36-39 | `Interpolate`: text without `{` is copied unchanged |
| VersionatorFormat.TrailingOpenBrace | versionator-proc/src/format/mod.rs:32 | `Interpolate`: a `{` at the end panics |
| VersionatorFormat.UnwrapStep | versionator-proc/src/format/mod.rs:49-53 | `?` appends the step "?" |
| VersionatorFormat.MemberStep | versionator-proc/src/format/mod.rs:54-73 | `.ident` appends the identifier, for any identifier the host's Unicode classes accept, non-ASCII letters included |
| VersionatorFormat.ReadPath | versionator-proc/src/format/mod.rs:45-83 | a printed path reads back as its steps, in order |
| VersionatorFormat.OpenPlaceholder | versionator-proc/src/format/mod.rs:29-43 | `Interpolate`: a placeholder renders its path, then scanning resumes; a bad path fails the whole template |
| VersionatorFormat.PlaceholderRoundTrip | versionator-proc/src/format/mod.rs:36-82 | `Interpolate`: `{path}` renders as `string_value` of that path, followed by the rest |
| VersionatorFormat.SpaceBeforeCloseIsRejected | versionator-proc/src/format/mod.rs:74-79 | `Interpolate`: whitespace directly before the closing brace panics |
| VersionatorStringValue.Leaf | versionator-proc/src/format/string_value.rs:94-125 | a primitive renders on an empty path and panics on any step |
| VersionatorStringValue.OptionAt | versionator-proc/src/format/string_value.rs:30-49 | empty path: None is "UNKNOWN" and Some its content; `?` continues into Some and panics on None |
| VersionatorStringValue.IdentifiersAt | versionator-proc/src/format/string_value.rs:127-137 | identifier lists are unimplemented |
| VersionatorStringValue.EmptyPaths | versionator-proc/src/format/string_value.rs:15-28 | the build and compiler records are unimplemented on an empty path; Git and Version render |
| VersionatorStringValue.AcceptedMembers | versionator-proc/src/format/string_value.rs:15-92 | each record accepts exactly its listed members and panics on others |
| VersionatorStringValue.PathsReachFields | versionator-proc/src/format/string_value.rs:51-92 | member paths reach the record's own values |
| VersionatorStringValue.GitTextMarkers | versionator-proc/src/format/string_value.rs:161-183 | `GitText`: a dirty record adds one `+` marker per place a name or hash appears: two with a branch name, one without |
| VersionatorIndexed.EmptyPaths | versionator-proc/src/format/indexed_string_value.rs:20-62 | build, crate and compiler records are unimplemented on an empty path; Git, Version and DateTime render |
| VersionatorIndexed.UnlistedStepsPanic | versionator-proc/src/format/indexed_string_value.rs:20-35 | the build record panics exactly on steps outside its four fields |
| VersionatorIndexed.UnlistedGitStepsPanic | versionator-proc/src/format/indexed_string_value.rs:215-234 | the Git record panics exactly on steps outside its three fields |
| VersionatorIndexed.UnlistedRecordStepsPanic | versionator-proc/src/format/indexed_string_value.rs:37-102 | crate and compiler records panic on unlisted steps |
| VersionatorIndexed.PathsReachFields | versionator-proc/src/format/indexed_string_value.rs:20-62 | field paths reach the record's own values |
| VersionatorIndexed.AbsentVersionControl | versionator-proc/src/format/indexed_string_value.rs:64-83 | `?` on absent version control panics |
| VersionatorIndexed.AuthorsRendering | versionator-proc/src/format/indexed_string_value.rs:166-185 | authors join with `", "`, and `len()` gives their count |
| VersionatorIndexed.FractionExact | versionator-proc/src/format/indexed_string_value.rs:53-62 | `Fraction`: the `%.f` fraction is empty iff there are no sub-seconds, and otherwise is 3, 6 or 9 digits of exactly the sub-second value |
| VersionatorIndexed.WholeSecondTimestamp | versionator-proc/src/format/indexed_string_value.rs:53-62 | `TimestampText`: a whole-second timestamp renders like the build-info timestamp |
| VersionatorIndexed.GitRenderingsDiffer | versionator-proc/src/format/indexed_string_value.rs:215-234 | `GitText` against `VersionatorStringValue.GitText`: the two Git renderings agree without a name and differ for a dirty named one |
| VersionatorSelect.LeafSel | versionator-proc/src/lib.rs:247-250 | a leaf selects its literal iff the remaining path is empty |
| VersionatorSelect.IdentifiersSel | versionator-proc/src/lib.rs:151-167 | an empty identifier list selects an empty vector; a non-empty one is unimplemented |
| VersionatorSelect.OptionInit | versionator-proc/src/expression/indexed_init_value.rs:162-180 | empty path emits the option's initialiser; `?` continues into Some and panics on None |
| VersionatorSelect.SelectRoot | versionator-proc/src/lib.rs:100-111 | `Select`: an empty path selects the whole value; only compiler and version_control are members |
| VersionatorSelect.SelectLeaves | versionator-proc/src/lib.rs:113-189 | `Select`: compiler leaves select their own values only at the end of the trace; `to_string()` selects the rendered text |
| VersionatorSelect.SelectUnwrap | versionator-proc/src/lib.rs:191-207 | `Select`: `?` on absent version control panics and on present version control continues into Git; absent writes nothing |
| VersionatorSelect.SelectIdentifiers | versionator-proc/src/lib.rs:160-162 | `Select`: non-empty pre-release identifiers are unimplemented |
| VersionatorSelect.InitEmptyPaths | versionator-proc/src/expression/indexed_init_value.rs:28-43 | `BuildInfoInit`: an empty path emits the full initialiser of the current value |
| VersionatorSelect.InitCrateMembers | versionator-proc/src/expression/indexed_init_value.rs:45-58 | `BuildInfoInit`: the crate record accepts only name and version |
| VersionatorSelect.InitUnwrap | versionator-proc/src/expression/indexed_init_value.rs:162-180 | `BuildInfoInit`: `?` continues into present version control and panics on absent |
| VersionatorSelect.InitToString | versionator-proc/src/expression/indexed_init_value.rs:92-109 | `BuildInfoInit`: `to_string()` on a version continues on its rendering |
| VersionatorSelect.InitChannelToString | versionator-proc/src/expression/indexed_init_value.rs:134-160 | `BuildInfoInit`: `to_string()` on a channel continues on its name |
| VersionatorSelect.InitTimestampMembers | versionator-proc/src/expression/indexed_init_value.rs:60-68 | `BuildInfoInit`: any member of the timestamp is unimplemented |
| VersionatorSelect.SelectionsAgreeOnCompilerLeaves | versionator-proc/src/lib.rs:113-131 | both selections emit the same tokens for the compiler leaves |
| VersionatorSelect.SelectionsDifferOnAbsentOption | versionator-proc/src/lib.rs:232-245 | an absent commit hash writes nothing in one selection and `None` in the other |
| VersionatorTrace.ParseMember | versionator-proc/src/expression/mod.rs:35-45 | `.ident` yields the step ident |
| VersionatorTrace.ParseCall | versionator-proc/src/expression/mod.rs:35-45 | `.ident()` yields ident followed by "()" |
| VersionatorTrace.ParsePosition | versionator-proc/src/expression/mod.rs:46-47 | `.N` yields the literal's text |
| VersionatorTrace.ParseTry | versionator-proc/src/expression/mod.rs:51-53 | `?` yields "?" |
| VersionatorTrace.ParseStep | versionator-proc/src/expression/mod.rs:28-58 | each printed step reads back as its text, and parsing continues after it |
| VersionatorTrace.TraceRoundTrip | versionator-proc/src/expression/mod.rs:25-60 | `ParseTrace`: a printed trace parses back to its steps, in source order |
| VersionatorTrace.Rejections | versionator-proc/src/lib.rs:51-86 | `ParseTrace`: non-empty parentheses and any other token are parse errors |

## Left out

- The metadata collectors are not modelled: git2, rustc_version, cargo_metadata, the filesystem and `rebuild_if_project_changes`. So are the serialisation pipeline (serde, bincode, xz, base64), the Python bindings and the demo crates. All of these are I/O or foreign code.
- `Utc::now`, the chrono conversion between timestamps and nanoseconds, and strftime with user-supplied format strings (the `format` method of dates) are parameters or left out. The epoch and nanosecond constructors are taken as total; chrono's out-of-range panics are not modelled.
- Unicode tables are host parameters or ASCII: `is_alphabetic`, case mapping and the derived `Debug` layouts of records, vectors, options and strings. `trim` uses the full White_Space property. The versionator identifier scanner takes `is_alphabetic` and `is_alphanumeric` from the host (VersionatorFormat.CharClasses). Its laws assume only that ASCII whitespace is not alphabetic and that `?`, `.`, `}` and the space are not alphanumeric (VersionatorFormat.StandardClasses).
- Procedural-macro plumbing is not modelled: spans (every generated token carries the call site), `quote!` hygiene, the crate-name lookup (a parameter) and diagnostic notes. Only the difference between a fatal abort and a collected diagnostic is kept.
- Environment lookups that fail on non-Unicode values are treated as unset.
- The `usize` overflow of a very long `{N}` position is not modelled; positions are unbounded naturals.
- Values.BuildInfoField: `optimization_level` returns the level as its own value kind, not an integer. The snapshot type stores an enum, so the integer conversion in `build_info.rs` does not apply to it.
- The type-tag enumeration gains OptimizationLevel and Endianness, which value kinds report although `types.rs` does not list them.
- `value/int.rs` is not part of this model. Integers support only `call_base` and render in decimal.
- `as_arguments_1` is modelled by `as_simple_arguments_1`.
- FormatMacro.FormatMacro: evaluates its arguments with Eval.Evaluate, the corrected evaluator whose `[index]` sends `!array_index`. The evaluator as written at build-info-proc/src/format/eval.rs:40 is Eval.EvalAsWritten. It is modelled and compared on its own, but the macro is not composed with it.
- Text.CharDebug: quotes the character as `'c'`. The escapes that `Debug` applies to quotes, backslashes, control and grapheme-extending characters are not modelled, so a slicing panic inside such a character differs in that part of its text.
- Text.SlicePanic: the displayed text is cut at 256 bytes, as std does; its laws are stated for commit ids that fit in that budget.
- Integer literals are read as decimal text plus a type suffix, and a negative literal is rejected. In the versionator expression parser this means a positional step written `.0x1` is recorded as the step "1", not as the text written. Selection and rendering are unaffected; only the text of a later "member not valid" panic differs. Keywords are not distinguished from identifiers, and `::` is two punctuation tokens.
- Semantic-version parsing is not modelled. A version is a record, and only its rendering is modelled; emitted `Version::parse` calls are read back as the text they parse. `FromStr` of the optimisation level is taken as the inverse of its `Display`.
- The `AtomicBool` once-guard is a field of the process state (World.ran) rather than a concurrency primitive.
- The shapes of CpuInfo and TargetInfo are taken from `target.rs` and `cpu_info.rs`. The pointer width is parsed as a u64.
- The versionator record types are defined here from their uses, because versionator-common/src/lib.rs is not part of this model:
  - Their `ToTokens` implementations are not modelled. Selection in versionator-proc/src/lib.rs returns the selected record rather than its tokens.
  - The versionator crate record's authors are read by the renderers but not serialised, as in the source.
- versionator-proc/src/format/indexed_string_value.rs is not reachable from that crate's macros. It is modelled on its own, with the path-step type of the build-info renderer.
- The Version walker of build-info-proc/src/format/indexed_string_value.rs:113-129 names `build_info::CompilerInfo` in its panic message; the model keeps that name.
- `option_string_value` reports its type mismatch as `Option<versionator::VersionControl>`, as written.

## Findings

| source | as written | input that shows it | evidently intended | confidence | as-written member | corrected member |
|---|---|---|---|---|---|---|
| build-info-proc/src/format/eval.rs:40 | `[index]` calls the operation `::std::ops::Index::index`, but vectors answer `!array_index` (value/mod.rs:78, value/vec.rs:12) | `build_info::format!("{}", $.crate_info.authors[0])` with one author | indexing a vector returns its element | medium, not executed: eval.rs passes `&[&dyn Value]`, the argument type of the older value.rs, whose List answers `::std::ops::Index::index` (value.rs:98, :237), so the two files may come from different revisions | Eval.EvalAsWritten (shown by Eval.AuthorIndexing, Eval.IndexAsWrittenFails) | Eval.Evaluate (proved by Eval.IndexCorrected, Eval.AuthorIndexing) |
| build-info-proc/src/format/value.rs:62-77 | `as_arguments_2` reports "1 argument" for a wrong count, and names the first argument's type when the second is mistyped | three arguments, or a second argument of the wrong kind | report 2 arguments and the second argument's type | high, not executed | LegacyValues.AsArguments2AsWritten (shown by LegacyValues.AsArguments2CountMessage, LegacyValues.AsArguments2TypeMessage) | LegacyValues.AsArguments2 |
