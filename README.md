# logcheck rule engine in Dafny

This project models the rule engine of `logcheck`, the lint analyser that
Kubernetes vendors to police its logging calls. For each call expression,
function type and `if` statement in a package, the engine decides which
diagnostics to report. The rules cover:

- klog functions that are unstructured, deprecated or not allowed under
  contextual logging;
- printf-style format specifiers in structured calls;
- key/value lists that are not made of pairs, and keys that are not inlined
  ASCII strings or do not follow the key naming pattern;
- logging through `V(0)`;
- `WithValues`, `WithName` and `NewContext` that should go through klogr;
- functions that accept both a context and a logger;
- `if x.V(n).Enabled()` conditions, whose `V` result should be stored in a
  variable.

The modules follow the source:

- `Strings` holds the character classes and `strings` helpers (`HasSuffix`,
  `Contains`, `Trim`).
- `GoAst` holds the part of `go/ast` the rules inspect, with the type
  checker's answers given as maps.
- `Report` holds the checks, the diagnostics, and the analysis pass as a class
  whose `Report` method appends one diagnostic.
- `NameTables`, `FormatSpecifiers`, `KeyValues`, `Verbosity`, `Signature` and
  `IfEnabled` hold one rule each.
- `Dispatch` holds `checkForFunctionExpr`.
- `RuleProperties` states what the whole rule set reports for a call.

Every function of the source that reports is a method that `modifies` the
pass. Its postcondition says that the new diagnostics are the old ones
followed by a pure report function of the input. The properties are proved
about those functions. The loops of the source are `for`/`while` loops with
invariants:

- the pair walks of `isKeysValid` and `keysCheck`;
- the parameter scan of `checkForContextAndLogger`;
- the selector-chain walk of `checkForIfEnabled`.

A diagnostic is modelled as its kind plus the names its message mentions.
The deprecation message is built in full.

## Model

| member | source | states |
|---|---|---|
| Strings.TrimQuotesShape | vendor/sigs.k8s.io/logtools/logcheck/pkg/logcheck.go:659 | `TrimQuotes`, the model of `strings.Trim(key, "\"")`: trimming double quotes leaves a contiguous part of the text that neither starts nor ends with a quote, and only quotes are cut off on either side |
| Strings.TrimQuotesOfQuote | vendor/sigs.k8s.io/logtools/logcheck/pkg/logcheck.go:659 | trimming the quotes of an interpreted string literal gives back its contents when they do not themselves start or end with a quote |
| Report.Pass.Report | vendor/sigs.k8s.io/logtools/logcheck/pkg/logcheck.go:152-155 | reporting appends exactly the one diagnostic to those already reported |
| NameTables.IsUnstructured | vendor/sigs.k8s.io/logtools/logcheck/pkg/logcheck.go:331-348 | defines the twenty klog functions that are unstructured; `UnstructuredAreSeverityVariants` and `UnstructuredNotContextual` are the lemmas about it |
| NameTables.IsContextualCall | vendor/sigs.k8s.io/logtools/logcheck/pkg/logcheck.go:362-395 | defines the allow-list of klog functions under contextual logging; `UnstructuredNotContextual` and `DeprecatedIsContextual` are the lemmas about it |
| NameTables.DeprecationMessage | vendor/sigs.k8s.io/logtools/logcheck/pkg/logcheck.go:356 | the deprecation message names the deprecated helper and its replacement, each quoted |
| NameTables.IsDeprecatedContextualCall | vendor/sigs.k8s.io/logtools/logcheck/pkg/logcheck.go:350-360 | a use is deprecated iff the name is "KObjs"; then the message names "KObjs" and "KObjSlice", otherwise it is empty |
| NameTables.UnstructuredAreSeverityVariants | vendor/sigs.k8s.io/logtools/logcheck/pkg/logcheck.go:331-348 | a name is unstructured iff it is one of Info, Warning, Error, Fatal, Exit followed by "", "f", "ln" or "Depth" |
| NameTables.UnstructuredNotContextual | vendor/sigs.k8s.io/logtools/logcheck/pkg/logcheck.go:331-395 | no unstructured function is on the contextual allow-list |
| NameTables.DeprecatedIsContextual | vendor/sigs.k8s.io/logtools/logcheck/pkg/logcheck.go:350-395 | the deprecated helper is allowed under contextual logging and is not unstructured, so the deprecation diagnostic is never cut off by either check |
| FormatSpecifiers.FirstContained | vendor/sigs.k8s.io/logtools/logcheck/pkg/logcheck.go:464-468 | the index found is that of a specifier the text contains, and no earlier one is contained; no index means that none is contained |
| FormatSpecifiers.SpecifierOf | vendor/sigs.k8s.io/logtools/logcheck/pkg/logcheck.go:463-469 | an argument shows a specifier iff it is a basic literal containing a listed one; the one shown is the first in list order |
| FormatSpecifiers.HasFormatSpecifier | vendor/sigs.k8s.io/logtools/logcheck/pkg/logcheck.go:456-472 | the result is ("", false) iff no literal argument contains a listed specifier; otherwise it is the first specifier of the first literal argument that has one |
| FormatSpecifiers.CheckFormatSpecifier | vendor/sigs.k8s.io/logtools/logcheck/pkg/logcheck.go:620-627 | only a selector call with at least one argument can pass; `CheckFormatSpecifierMeaning` and `FindingMatchesCheck` are the lemmas about it |
| FormatSpecifiers.CheckFormatSpecifierMeaning | vendor/sigs.k8s.io/logtools/logcheck/pkg/logcheck.go:620-627 | `checkFormatSpecifier` holds iff the call is a selector call and some basic literal argument contains a listed specifier |
| FormatSpecifiers.FormatSpecifierFinding | vendor/sigs.k8s.io/logtools/logcheck/pkg/logcheck.go:436-454 | a finding exists iff the call is a selector call whose name does not end in "f" and some literal argument holds a specifier; it names the function and a specifier that a literal argument contains |
| FormatSpecifiers.CheckForFormatSpecifier | vendor/sigs.k8s.io/logtools/logcheck/pkg/logcheck.go:436-454 | returns true iff there is a finding, and appends exactly that finding, or nothing |
| FormatSpecifiers.FormattedNameNeverFlagged | vendor/sigs.k8s.io/logtools/logcheck/pkg/logcheck.go:440-443 | a function whose name ends in "f" never draws a format specifier diagnostic |
| FormatSpecifiers.FindingMatchesCheck | vendor/sigs.k8s.io/logtools/logcheck/pkg/logcheck.go:620-627 | for names not ending in "f", `checkFormatSpecifier` holds iff `checkForFormatSpecifier` reports |
| FormatSpecifiers.LiteralWithSpecifierFound | vendor/sigs.k8s.io/logtools/logcheck/pkg/logcheck.go:462-468 | a literal argument containing any listed specifier is noticed, wherever it stands in the argument list |
| KeyValues.KeyPatternShape | vendor/sigs.k8s.io/logtools/logcheck/pkg/logcheck.go:658-659 | `KeyPatternMatches`, the model of the key regular expression: a text matches it iff it is non-empty, alphanumeric, and starts with a lower-case letter or with two capitals |
| KeyValues.ShortKeysRejected | vendor/sigs.k8s.io/logtools/logcheck/pkg/logcheck.go:658-665 | "A" and the empty text do not match the key pattern |
| KeyValues.KeyFindings | vendor/sigs.k8s.io/logtools/logcheck/pkg/logcheck.go:643-665 | a key draws at most one finding, and none iff it is a string literal that passes the rule; a key that is not a string literal draws exactly the "inlined constant string" finding |
| KeyValues.PairsReport | vendor/sigs.k8s.io/logtools/logcheck/pkg/logcheck.go:407-433 | an even-length list draws only key findings, at most one per pair |
| KeyValues.KeysReport | vendor/sigs.k8s.io/logtools/logcheck/pkg/logcheck.go:398-405 | an odd-length list draws exactly one "Key Value pairs" finding and nothing else; an even-length one draws key findings only, at most half its length |
| KeyValues.ValuesIgnored | vendor/sigs.k8s.io/logtools/logcheck/pkg/logcheck.go:639-642 | two lists that agree on their keys draw the same findings, whatever their values |
| KeyValues.CleanIffKeysAccepted | vendor/sigs.k8s.io/logtools/logcheck/pkg/logcheck.go:407-433 | an even-length list draws no finding iff every key at an even position passes the rule |
| KeyValues.RejectedKeyReported | vendor/sigs.k8s.io/logtools/logcheck/pkg/logcheck.go:639-666 | every rejected key at an even position has its finding in the report |
| KeyValues.IsKeysValid | vendor/sigs.k8s.io/logtools/logcheck/pkg/logcheck.go:398-434 | the loop appends exactly the report of the ASCII rule for the list |
| KeyValues.KeysCheck | vendor/sigs.k8s.io/logtools/logcheck/pkg/logcheck.go:630-667 | the loop appends exactly the report of the key pattern rule for the list |
| Verbosity.IsVerbosityZero | vendor/sigs.k8s.io/logtools/logcheck/pkg/logcheck.go:590-618 | holds iff the expression is a call `_.V(a)` with exactly one argument, and `a` is the literal 0 or a constant declared with exactly one value, the literal 0 |
| Verbosity.VerbosityZeroFinding | vendor/sigs.k8s.io/logtools/logcheck/pkg/logcheck.go:572-588 | a call is reported iff it is a method called on a `klog.Verbose` value or a logger that is itself `V(0)`; the finding is the verbosity-zero one |
| Verbosity.CheckForVerbosityZero | vendor/sigs.k8s.io/logtools/logcheck/pkg/logcheck.go:572-588 | appends the verbosity-zero finding for the call, or nothing |
| Verbosity.VerbosityZeroReported | vendor/sigs.k8s.io/logtools/logcheck/pkg/logcheck.go:572-618 | a method called on `V(a)`, where `V(a)` is a `klog.Verbose` value or a logger, is reported iff `a` is the literal 0 or a constant declared as it |
| Verbosity.OtherReceiversIgnored | vendor/sigs.k8s.io/logtools/logcheck/pkg/logcheck.go:572-580 | a method called on a value that is neither a `klog.Verbose` nor a logger is never reported, even when that value is `V(0)` |
| Signature.CheckForContextAndLogger | vendor/sigs.k8s.io/logtools/logcheck/pkg/logcheck.go:478-505 | appends exactly one diagnostic iff some parameter is a `logr.Logger` and some parameter is a `context.Context`, and nothing otherwise |
| IfEnabled.ChainBase | vendor/sigs.k8s.io/logtools/logcheck/pkg/logcheck.go:555-557 | the root of a selector chain is not itself a selector, and a non-selector is its own root |
| IfEnabled.ChainBaseOfPath | vendor/sigs.k8s.io/logtools/logcheck/pkg/logcheck.go:554-560 | whatever fields are selected from a base, the walk ends at that base |
| IfEnabled.IfEnabledFinding | vendor/sigs.k8s.io/logtools/logcheck/pkg/logcheck.go:509-546 | a condition is reported iff it has the shape `IsVEnabled` describes, `x.V(n).Enabled()`, with `x.V(n)` a `klog.Verbose` or a logger |
| IfEnabled.CheckForIfEnabled | vendor/sigs.k8s.io/logtools/logcheck/pkg/logcheck.go:509-570 | the selector-chain loop appends exactly the finding for the condition, or nothing |
| IfEnabled.LoggerSuggestion | vendor/sigs.k8s.io/logtools/logcheck/pkg/logcheck.go:548-562 | `SuggestedVariable` and the suggested call: for a logger reached through fields of a variable, the suggestion is that variable's name and its `V` |
| IfEnabled.DefaultLoggerSuggestion | vendor/sigs.k8s.io/logtools/logcheck/pkg/logcheck.go:552-561 | `SuggestedVariable` and the suggested call: for a logger whose selector chain starts from something other than an identifier, such as `getLogger().V(n).Enabled()`, the suggestion is `logger := logger.V(n)` |
| IfEnabled.KlogSuggestion | vendor/sigs.k8s.io/logtools/logcheck/pkg/logcheck.go:550-551 | for klog the suggestion is `klogV := klog.V(n)` |
| IfEnabled.PlainEnabledAccepted | vendor/sigs.k8s.io/logtools/logcheck/pkg/logcheck.go:536-546 | `logger.Enabled()` without `V` is never reported |
| GoAst.IsKlogVerbose | vendor/sigs.k8s.io/logtools/logcheck/pkg/logcheck.go:266-282 | defines "the type checker gives the expression the named type `Verbose` of `k8s.io/klog/v2`"; `ReceiverOf`, `VerbosityZeroReported` and `IfEnabledFinding` state what the rules do with it |
| GoAst.IsKlog | vendor/sigs.k8s.io/logtools/logcheck/pkg/logcheck.go:284-294 | defines "a `klog.Verbose` value or an identifier naming the package `k8s.io/klog/v2`"; `ReceiverOf` and `OtherCallsIgnored` state what the rules do with it |
| GoAst.IsPackage | vendor/sigs.k8s.io/logtools/logcheck/pkg/logcheck.go:296-312 | defines "an identifier that the type checker resolves to the package with the given path"; `ReceiverOf` and `NewContextReported` state what the rules do with it |
| GoAst.IsGoLogger | vendor/sigs.k8s.io/logtools/logcheck/pkg/logcheck.go:314-329 | defines "the type checker gives the expression the named type `Logger` of `github.com/go-logr/logr`"; `ReceiverOf`, `VerbosityZeroReported` and `CheckForContextAndLogger` state what the rules do with it |
| Dispatch.ReceiverOf | vendor/sigs.k8s.io/logtools/logcheck/pkg/logcheck.go:150-213 | klog (the package or a `klog.Verbose` value) is chosen iff the receiver is klog; the logger rules iff it is a logger and not klog |
| Dispatch.KeyValuesStart | vendor/sigs.k8s.io/logtools/logcheck/pkg/logcheck.go:185-223 | only InfoS and ErrorS on klog, and WithValues, Info and Error on a logger, have a key/value list; it starts at argument 0, 1 or 2; no such name ends in "f" |
| Dispatch.KeyListReport | vendor/sigs.k8s.io/logtools/logcheck/pkg/logcheck.go:185-188 | a validator run on the call's key/value list reports only key findings or the pairs finding for the call's name, and nothing for a function without such a list |
| Dispatch.DeprecationReport | vendor/sigs.k8s.io/logtools/logcheck/pkg/logcheck.go:160-168 | a deprecation is reported iff that check is on and the name is "KObjs" |
| Dispatch.ParametersReport | vendor/sigs.k8s.io/logtools/logcheck/pkg/logcheck.go:179-224 | the parameters check reports only key findings, the pairs finding, or the call's format specifier finding |
| Dispatch.HelpersReport | vendor/sigs.k8s.io/logtools/logcheck/pkg/logcheck.go:225-233 | the with-helpers check reports only its own finding for the called name |
| Dispatch.VerbosityReport | vendor/sigs.k8s.io/logtools/logcheck/pkg/logcheck.go:196-199 | the verbosity-zero check reports only the verbosity-zero finding |
| Dispatch.KeyCheckReport | vendor/sigs.k8s.io/logtools/logcheck/pkg/logcheck.go:200-212 | the key check reports only key findings or the pairs finding, and nothing when the call has a format specifier |
| Dispatch.FunctionExprReport | vendor/sigs.k8s.io/logtools/logcheck/pkg/logcheck.go:135-264 | defines everything `checkForFunctionExpr` reports for a call; the `RuleProperties` lemmas and `CheckForFunctionExpr` are about it |
| Dispatch.KlogReport | vendor/sigs.k8s.io/logtools/logcheck/pkg/logcheck.go:150-212 | defines the klog branch: the contextual finding alone, or the deprecation followed by the structured finding or the argument checks; `ContextualRejectsAlone`, `UnstructuredReportedOnce` and `DeprecationAlwaysFirst` are about it |
| Dispatch.KlogArgumentsReport | vendor/sigs.k8s.io/logtools/logcheck/pkg/logcheck.go:179-212 | defines the klog argument checks: the format finding alone, or the parameters, verbosity-zero and key reports in order; `KlogFormatSuppressesKeyChecks` and `OddInfoSReportedTwice` are about it |
| Dispatch.LogrReport | vendor/sigs.k8s.io/logtools/logcheck/pkg/logcheck.go:213-253 | defines the logger branch: the parameters, with-helpers, verbosity-zero and key reports in order; `LogrFormatKeepsParameterCheck` and `WithHelpersReported` are about it |
| Dispatch.CheckForFunctionExpr | vendor/sigs.k8s.io/logtools/logcheck/pkg/logcheck.go:135-264 | appends exactly the report for the call, in order |
| Dispatch.CheckKlogCall | vendor/sigs.k8s.io/logtools/logcheck/pkg/logcheck.go:150-212 | the klog branch appends the klog report: contextual and structured diagnostics end it, and a deprecation comes first |
| Dispatch.CheckKlogArguments | vendor/sigs.k8s.io/logtools/logcheck/pkg/logcheck.go:179-212 | the klog argument checks append their report; a format specifier finding ends them |
| Dispatch.CheckLogrCall | vendor/sigs.k8s.io/logtools/logcheck/pkg/logcheck.go:213-253 | the logger branch appends the parameters, with-helpers, verbosity-zero and key reports in that order |
| Dispatch.ValidateKeyList | vendor/sigs.k8s.io/logtools/logcheck/pkg/logcheck.go:216-223 | runs the chosen validator on the argument list after the leading arguments and appends its report |
| Dispatch.CheckKeys | vendor/sigs.k8s.io/logtools/logcheck/pkg/logcheck.go:239-253 | appends the key check's report |
| RuleProperties.ContextualRejectsAlone | vendor/sigs.k8s.io/logtools/logcheck/pkg/logcheck.go:151-157 | with the contextual check on, a klog call not on the allow-list draws exactly one diagnostic |
| RuleProperties.UnstructuredReportedOnce | vendor/sigs.k8s.io/logtools/logcheck/pkg/logcheck.go:171-177 | with the structured check on, an unstructured klog call draws exactly one diagnostic: the contextual one if that check is on, otherwise the structured one |
| RuleProperties.DeprecationAlwaysFirst | vendor/sigs.k8s.io/logtools/logcheck/pkg/logcheck.go:159-168 | with the deprecation check on, `klog.KObjs` draws the deprecation message as its first diagnostic, whatever else is on |
| RuleProperties.FormatFindingsJustified | vendor/sigs.k8s.io/logtools/logcheck/pkg/logcheck.go:179-224 | every format specifier diagnostic reported for a call is the call's own finding: the name does not end in "f" and a literal argument holds the specifier |
| RuleProperties.KlogFormatSuppressesKeyChecks | vendor/sigs.k8s.io/logtools/logcheck/pkg/logcheck.go:179-212 | a klog call with a format specifier in a literal argument draws no key or pairs diagnostic |
| RuleProperties.LogrFormatKeepsParameterCheck | vendor/sigs.k8s.io/logtools/logcheck/pkg/logcheck.go:214-224 | on a logger, `Info` with a format specifier and an odd key/value list draws the format finding and then the pairs finding |
| RuleProperties.OddInfoSReportedTwice | vendor/sigs.k8s.io/logtools/logcheck/pkg/logcheck.go:179-212 | with the parameters and key checks on, `klog.InfoS` without a format specifier and with an odd key/value list draws the pairs finding twice, once from `isKeysValid` and once from `keysCheck` |
| RuleProperties.OtherCallsIgnored | vendor/sigs.k8s.io/logtools/logcheck/pkg/logcheck.go:143-263 | a call that is not a selector call, or whose receiver is neither klog, a logger nor the logr package, draws nothing |
| RuleProperties.NothingEnabledNothingReported | vendor/sigs.k8s.io/logtools/logcheck/pkg/logcheck.go:135-264 | with every check off, no call draws a diagnostic |
| RuleProperties.WithHelpersReported | vendor/sigs.k8s.io/logtools/logcheck/pkg/logcheck.go:225-233 | with the with-helpers check on, `WithValues` and `WithName` on a logger are reported right after the parameters findings |
| RuleProperties.NewContextReported | vendor/sigs.k8s.io/logtools/logcheck/pkg/logcheck.go:254-261 | `logr.NewContext` draws the klogr diagnostic iff the with-helpers check is on, and nothing else |

## Left out

- `Analyser` (flag set, `LOGCHECK_CONFIG` lookup, panics) and `config.isEnabled` with its file filter. The checks enabled for the file at hand are a parameter, the set `enabled`.
- `run` and its `ast.Inspect` walk. `checkForFunctionExpr` takes the call expression and `checkForIfEnabled` takes the `if` statement's condition `i.Cond`, as `run` hands them. `checkForContextAndLogger` takes the list of parameter type expressions.
- Type checking (`go/types`). `TypesInfo` gives the named type of each expression and the package each identifier names. It is keyed by expression value, not by syntax node identity, so two equal expressions always get the same type.
- Diagnostic positions, and the message text other than the names each message carries. Only the deprecation message is built in full.
- Calls on which the source panics. `SliceableArgs` leaves out calls whose syntax tree has too few arguments for the slicing `args[1:]` or `args[2:]` at logcheck.go lines 186-188, 208-210, 220-222 and 249-251. The type checker does not rule these out. A multi-value call passed as the only argument, such as `klog.ErrorS(errAndMsg())` or `logger.Error(errAndMsg())` with `errAndMsg` returning `(error, string)`, type-checks. Its syntax tree has a single argument, so `args[2:]` panics in the analyser. The model does not describe that panic. `SliceableArgs` is required whatever checks are enabled, so it also leaves out such calls where the source does not slice and does not panic. For example, `klog.ErrorS(errAndMsg())` with the contextual check on is reported and returned from at logcheck.go lines 151-156 before any slicing, and the same call with the parameters and key checks off is never sliced. The whole-report lemmas, such as `ContextualRejectsAlone` and `NothingEnabledNothingReported`, say nothing about these calls.
- Go's `regexp` engine and `utf8string.IsASCII` are restated as character predicates. A key is ASCII iff every code point is below 0x80, which is the same as every byte of its UTF-8 encoding being below 0x80.
- `pkg/api/node_test.go` and the metrics serving pipeline are not part of this model.
