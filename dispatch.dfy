/** `checkForFunctionExpr`: the rule set applied to every call whose function
    is a selector (`x.F(…)`), chosen by what `x` is — the klog package or a
    `klog.Verbose` value, a `logr.Logger` value, or the logr package. */
module Dispatch {
  import opened Strings
  import opened GoAst
  import opened Report
  import opened NameTables
  import opened FormatSpecifiers
  import opened KeyValues
  import opened Verbosity

  /** The two kinds of logging receivers the rules distinguish. */
  datatype Receiver = Klog | Logr

  /** Which rule set applies to a call's receiver; klog is tested first. */
  function ReceiverOf(info: TypesInfo, call: Call): (r: Option<Receiver>)
    requires call.fun.SelectorExpr?
    ensures r == Some(Klog) <==> IsKlog(info, call.fun.x)
    ensures r == Some(Logr) <==> !IsKlog(info, call.fun.x) && IsGoLogger(info, call.fun.x)
  {
    if IsKlog(info, call.fun.x) then Some(Klog)
    else if IsGoLogger(info, call.fun.x) then Some(Logr)
    else None
  }

  /** Where the key/value list of a structured logging call starts, for the
      functions whose lists are validated: `InfoS(msg, kv…)` and
      `ErrorS(err, msg, kv…)` on klog; `WithValues(kv…)`, `Info(msg, kv…)` and
      `Error(err, msg, kv…)` on a logger. */
  function KeyValuesStart(receiver: Receiver, fName: string): (r: Option<nat>)
    ensures r.Some? ==> r.value <= 2
    ensures r.Some? ==> !HasSuffix(fName, "f")
    ensures receiver == Klog ==> (r.Some? <==> fName == "InfoS" || fName == "ErrorS")
    ensures receiver == Logr ==> (r.Some? <==> fName == "WithValues" || fName == "Info" || fName == "Error")
  {
    match receiver
    case Klog =>
      if fName == "InfoS" then Some(1)
      else if fName == "ErrorS" then Some(2)
      else None
    case Logr =>
      if fName == "WithValues" then Some(0)
      else if fName == "Info" then Some(1)
      else if fName == "Error" then Some(2)
      else None
  }

  /** Calls whose syntax tree has at least the leading arguments that the
      slicing at logcheck.go:186-188, 208-210, 220-222 and 249-251 needs, so
      the key/value list can be sliced off. */
  predicate SliceableArgs(info: TypesInfo, call: Call)
  {
    call.fun.SelectorExpr? ==>
      match ReceiverOf(info, call)
      case None => true
      case Some(receiver) =>
        match KeyValuesStart(receiver, call.fun.sel)
        case None => true
        case Some(n) => n <= |call.args|
  }

  /** What a key/value validator reports for the call's key/value list, or
      nothing when the function has none. */
  function KeyListReport(rule: KeyRule, receiver: Receiver, info: TypesInfo, call: Call): (r: seq<Diagnostic>)
    requires call.fun.SelectorExpr? && SliceableArgs(info, call) && ReceiverOf(info, call) == Some(receiver)
    ensures forall d | d in r :: d.IsKeyFinding() || d == NotKeyValuePairs(call.fun.sel)
    ensures KeyValuesStart(receiver, call.fun.sel).None? ==> r == []
  {
    match KeyValuesStart(receiver, call.fun.sel)
    case None => []
    case Some(n) => KeysReport(rule, call.args[n..], call.fun.sel)
  }

  /** The deprecation diagnostic, when that check is on. */
  function DeprecationReport(enabled: set<Check>, fName: string): (r: seq<Diagnostic>)
    ensures r != [] <==> Deprecations in enabled && fName == "KObjs"
    ensures forall d | d in r :: d.Deprecated?
  {
    if Deprecations in enabled && IsDeprecatedContextualCall(fName).1 then [Deprecated(IsDeprecatedContextualCall(fName).0)]
    else []
  }

  /** The parameters check: the format specifier finding and the key/value
      list validated by `isKeysValid`, in the order each branch runs them. */
  function ParametersReport(enabled: set<Check>, receiver: Receiver, info: TypesInfo, call: Call): (r: seq<Diagnostic>)
    requires call.fun.SelectorExpr? && SliceableArgs(info, call) && ReceiverOf(info, call) == Some(receiver)
    ensures forall d | d in r :: d.IsKeyFinding() || d == NotKeyValuePairs(call.fun.sel) || FormatSpecifierFinding(call) == Some(d)
  {
    if Parameters !in enabled then []
    else match receiver
      case Klog => KeyListReport(AsciiRule, Klog, info, call) + Reported(FormatSpecifierFinding(call))
      case Logr => Reported(FormatSpecifierFinding(call)) + KeyListReport(AsciiRule, Logr, info, call)
  }

  /** The with-helpers check on a logger: `WithValues` and `WithName` should
      go through klogr. */
  function HelpersReport(enabled: set<Check>, fName: string): (r: seq<Diagnostic>)
    ensures forall d | d in r :: d == ThroughKlogrLogger(fName)
  {
    if WithHelpers in enabled && (fName == "WithValues" || fName == "WithName") then [ThroughKlogrLogger(fName)] else []
  }

  /** The verbosity-zero check. */
  function VerbosityReport(enabled: set<Check>, info: TypesInfo, call: Call): (r: seq<Diagnostic>)
    ensures forall d | d in r :: d == VerbosityZeroCall
  {
    if VerbosityZero in enabled then Reported(VerbosityZeroFinding(info, call)) else []
  }

  /** The key check: skipped when the call has a format specifier anywhere,
      otherwise `keysCheck` on the key/value list. */
  function KeyCheckReport(enabled: set<Check>, receiver: Receiver, info: TypesInfo, call: Call): (r: seq<Diagnostic>)
    requires call.fun.SelectorExpr? && SliceableArgs(info, call) && ReceiverOf(info, call) == Some(receiver)
    ensures forall d | d in r :: d.IsKeyFinding() || d == NotKeyValuePairs(call.fun.sel)
    ensures CheckFormatSpecifier(call) ==> r == []
  {
    if Key in enabled && !CheckFormatSpecifier(call) then KeyListReport(PatternRule, receiver, info, call) else []
  }

  /** The checks applied to a call on klog or a `klog.Verbose` value; the
      contextual and structured checks can each end the run. */
  function KlogReport(enabled: set<Check>, info: TypesInfo, call: Call): seq<Diagnostic>
    requires call.fun.SelectorExpr? && SliceableArgs(info, call) && ReceiverOf(info, call) == Some(Klog)
  {
    var fName := call.fun.sel;
    if Contextual in enabled && !IsContextualCall(fName) then [NotContextual(fName)]
    else if Structured in enabled && IsUnstructured(fName) then DeprecationReport(enabled, fName) + [UnstructuredCall(fName)]
    else DeprecationReport(enabled, fName) + KlogArgumentsReport(enabled, info, call)
  }

  /** The checks of a klog call's arguments; a format specifier found by the
      parameters check ends the run. */
  function KlogArgumentsReport(enabled: set<Check>, info: TypesInfo, call: Call): seq<Diagnostic>
    requires call.fun.SelectorExpr? && SliceableArgs(info, call) && ReceiverOf(info, call) == Some(Klog)
  {
    if Parameters in enabled && FormatSpecifierFinding(call).Some? then [FormatSpecifierFinding(call).value]
    else ParametersReport(enabled, Klog, info, call) + VerbosityReport(enabled, info, call) + KeyCheckReport(enabled, Klog, info, call)
  }

  /** The checks applied to a call on a `logr.Logger` value; all of them run. */
  function LogrReport(enabled: set<Check>, info: TypesInfo, call: Call): seq<Diagnostic>
    requires call.fun.SelectorExpr? && SliceableArgs(info, call) && ReceiverOf(info, call) == Some(Logr)
  {
    ParametersReport(enabled, Logr, info, call) + HelpersReport(enabled, call.fun.sel)
      + VerbosityReport(enabled, info, call) + KeyCheckReport(enabled, Logr, info, call)
  }

  /** Everything `checkForFunctionExpr` reports for one call, in order. */
  function FunctionExprReport(enabled: set<Check>, info: TypesInfo, call: Call): seq<Diagnostic>
    requires SliceableArgs(info, call)
  {
    if !call.fun.SelectorExpr? then []
    else
      match ReceiverOf(info, call)
      case Some(Klog) => KlogReport(enabled, info, call)
      case Some(Logr) => LogrReport(enabled, info, call)
      case None =>
        if call.fun.sel == "NewContext" && IsPackage(info, call.fun.x, LogrPath) && WithHelpers in enabled
        then [ThroughKlogrNewContext(call.fun.sel)]
        else []
  }

  /** `checkForFunctionExpr`. */
  method CheckForFunctionExpr(pass: Pass, enabled: set<Check>, fexpr: Call)
    requires SliceableArgs(pass.typesInfo, fexpr)
    modifies pass
    ensures pass.diagnostics == old(pass.diagnostics) + FunctionExprReport(enabled, pass.typesInfo, fexpr)
  {
    if !fexpr.fun.SelectorExpr? {
      return;
    }
    var selExpr := fexpr.fun;
    var fName := selExpr.sel;
    if IsKlog(pass.typesInfo, selExpr.x) {
      CheckKlogCall(pass, enabled, fexpr);
    } else if IsGoLogger(pass.typesInfo, selExpr.x) {
      CheckLogrCall(pass, enabled, fexpr);
    } else if fName == "NewContext" && IsPackage(pass.typesInfo, selExpr.x, LogrPath) && WithHelpers in enabled {
      pass.Report(ThroughKlogrNewContext(fName));
    }
  }

  /** The klog branch of `checkForFunctionExpr`. */
  method CheckKlogCall(pass: Pass, enabled: set<Check>, fexpr: Call)
    requires fexpr.fun.SelectorExpr? && SliceableArgs(pass.typesInfo, fexpr) && ReceiverOf(pass.typesInfo, fexpr) == Some(Klog)
    modifies pass
    ensures pass.diagnostics == old(pass.diagnostics) + KlogReport(enabled, pass.typesInfo, fexpr)
  {
    var fName := fexpr.fun.sel;
    if Contextual in enabled && !IsContextualCall(fName) {
      pass.Report(NotContextual(fName));
      return;
    }
    if Deprecations in enabled {
      var (message, deprecatedUse) := IsDeprecatedContextualCall(fName);
      if deprecatedUse {
        pass.Report(Deprecated(message));
      }
    }
    ghost var afterDeprecation := pass.diagnostics;
    assert afterDeprecation == old(pass.diagnostics) + DeprecationReport(enabled, fName);
    if Structured in enabled && IsUnstructured(fName) {
      pass.Report(UnstructuredCall(fName));
      AppendAssoc(old(pass.diagnostics), DeprecationReport(enabled, fName), [UnstructuredCall(fName)]);
      return;
    }
    CheckKlogArguments(pass, enabled, fexpr);
    AppendAssoc(old(pass.diagnostics), DeprecationReport(enabled, fName), KlogArgumentsReport(enabled, pass.typesInfo, fexpr));
  }

  /** The rest of the klog branch: the parameters, verbosity-zero and key
      checks. */
  method CheckKlogArguments(pass: Pass, enabled: set<Check>, fexpr: Call)
    requires fexpr.fun.SelectorExpr? && SliceableArgs(pass.typesInfo, fexpr) && ReceiverOf(pass.typesInfo, fexpr) == Some(Klog)
    modifies pass
    ensures pass.diagnostics == old(pass.diagnostics) + KlogArgumentsReport(enabled, pass.typesInfo, fexpr)
  {
    ghost var info := pass.typesInfo;
    ghost var parameters := ParametersReport(enabled, Klog, info, fexpr);
    ghost var verbosity := VerbosityReport(enabled, info, fexpr);
    ghost var keys := KeyCheckReport(enabled, Klog, info, fexpr);
    if Parameters in enabled {
      var found := CheckForFormatSpecifier(pass, fexpr);
      if found {
        return;
      }
      ValidateKeyList(pass, AsciiRule, Klog, fexpr);
      if Parameters in enabled {
        found := CheckForFormatSpecifier(pass, fexpr);
      }
      AppendAssoc(old(pass.diagnostics), KeyListReport(AsciiRule, Klog, info, fexpr), Reported(FormatSpecifierFinding(fexpr)));
    }
    ghost var afterParameters := pass.diagnostics;
    assert afterParameters == old(pass.diagnostics) + parameters;
    if VerbosityZero in enabled {
      CheckForVerbosityZero(pass, fexpr);
    }
    assert pass.diagnostics == afterParameters + verbosity;
    AppendAssoc(old(pass.diagnostics), parameters, verbosity);
    AppendAssoc(old(pass.diagnostics), parameters + verbosity, keys);
    CheckKeys(pass, enabled, Klog, fexpr);
  }

  /** The logger branch of `checkForFunctionExpr`. */
  method CheckLogrCall(pass: Pass, enabled: set<Check>, fexpr: Call)
    requires fexpr.fun.SelectorExpr? && SliceableArgs(pass.typesInfo, fexpr) && ReceiverOf(pass.typesInfo, fexpr) == Some(Logr)
    modifies pass
    ensures pass.diagnostics == old(pass.diagnostics) + LogrReport(enabled, pass.typesInfo, fexpr)
  {
    var fName := fexpr.fun.sel;
    ghost var info := pass.typesInfo;
    ghost var parameters := ParametersReport(enabled, Logr, info, fexpr);
    ghost var helpers := HelpersReport(enabled, fName);
    ghost var verbosity := VerbosityReport(enabled, info, fexpr);
    ghost var keys := KeyCheckReport(enabled, Logr, info, fexpr);
    if Parameters in enabled {
      var found := CheckForFormatSpecifier(pass, fexpr);
      ValidateKeyList(pass, AsciiRule, Logr, fexpr);
      AppendAssoc(old(pass.diagnostics), Reported(FormatSpecifierFinding(fexpr)), KeyListReport(AsciiRule, Logr, info, fexpr));
    }
    ghost var afterParameters := pass.diagnostics;
    assert afterParameters == old(pass.diagnostics) + parameters;
    if WithHelpers in enabled {
      if fName == "WithValues" || fName == "WithName" {
        pass.Report(ThroughKlogrLogger(fName));
      }
    }
    ghost var afterHelpers := pass.diagnostics;
    assert afterHelpers == afterParameters + helpers;
    if VerbosityZero in enabled {
      CheckForVerbosityZero(pass, fexpr);
    }
    assert pass.diagnostics == afterHelpers + verbosity;
    AppendAssoc(old(pass.diagnostics), parameters, helpers);
    AppendAssoc(old(pass.diagnostics), parameters + helpers, verbosity);
    AppendAssoc(old(pass.diagnostics), parameters + helpers + verbosity, keys);
    CheckKeys(pass, enabled, Logr, fexpr);
  }

  /** Runs a key/value validator (`isKeysValid` for the ASCII rule,
      `keysCheck` for the pattern rule) on the key/value list of the
      functions that take one, sliced off after their leading arguments. */
  method ValidateKeyList(pass: Pass, rule: KeyRule, receiver: Receiver, fexpr: Call)
    requires fexpr.fun.SelectorExpr? && SliceableArgs(pass.typesInfo, fexpr) && ReceiverOf(pass.typesInfo, fexpr) == Some(receiver)
    modifies pass
    ensures pass.diagnostics == old(pass.diagnostics) + KeyListReport(rule, receiver, pass.typesInfo, fexpr)
  {
    var fName := fexpr.fun.sel;
    var start := KeyValuesStart(receiver, fName);
    if start.Some? {
      var keyValues := fexpr.args[start.value..];
      match rule
      case AsciiRule => IsKeysValid(pass, keyValues, fName);
      case PatternRule => KeysCheck(pass, keyValues, fName);
    }
  }

  /** The key check, the last one of both branches: skipped when a format
      specifier is found, since the list is then most likely not made of
      pairs. */
  method CheckKeys(pass: Pass, enabled: set<Check>, receiver: Receiver, fexpr: Call)
    requires fexpr.fun.SelectorExpr? && SliceableArgs(pass.typesInfo, fexpr) && ReceiverOf(pass.typesInfo, fexpr) == Some(receiver)
    modifies pass
    ensures pass.diagnostics == old(pass.diagnostics) + KeyCheckReport(enabled, receiver, pass.typesInfo, fexpr)
  {
    if Key in enabled {
      if CheckFormatSpecifier(fexpr) {
        assert pass.diagnostics + [] == pass.diagnostics;
        return;
      }
      ValidateKeyList(pass, PatternRule, receiver, fexpr);
    }
  }
}
