/** Properties of the whole rule set for one call, as `checkForFunctionExpr`
    applies it. */
module RuleProperties {
  import opened Strings
  import opened GoAst
  import opened Report
  import opened NameTables
  import opened FormatSpecifiers
  import opened KeyValues
  import opened Dispatch

  /** A call to any function that is not on the contextual allow-list draws
      exactly one diagnostic once contextual logging is required, whatever
      else is enabled. */
  lemma ContextualRejectsAlone(enabled: set<Check>, info: TypesInfo, call: Call)
    requires SliceableArgs(info, call) && call.fun.SelectorExpr? && IsKlog(info, call.fun.x)
    requires Contextual in enabled && !IsContextualCall(call.fun.sel)
    ensures FunctionExprReport(enabled, info, call) == [NotContextual(call.fun.sel)]
  {
  }

  /** An unstructured klog call draws exactly one diagnostic: the contextual
      one when contextual logging is required (no unstructured function is
      allowed there), otherwise the structured one; no deprecation is ever
      added to it. */
  lemma UnstructuredReportedOnce(enabled: set<Check>, info: TypesInfo, call: Call)
    requires SliceableArgs(info, call) && call.fun.SelectorExpr? && IsKlog(info, call.fun.x)
    requires Structured in enabled && IsUnstructured(call.fun.sel)
    ensures FunctionExprReport(enabled, info, call)
              == [if Contextual in enabled then NotContextual(call.fun.sel) else UnstructuredCall(call.fun.sel)]
  {
    var fName := call.fun.sel;
    UnstructuredNotContextual(fName);
    if fName == "KObjs" {
      DeprecatedIsContextual(fName);
    }
    assert DeprecationReport(enabled, fName) == [];
  }

  /** The deprecated helper is reported whether or not contextual logging is
      required, as the first diagnostic for the call. */
  lemma DeprecationAlwaysFirst(enabled: set<Check>, info: TypesInfo, call: Call)
    requires SliceableArgs(info, call) && call.fun.SelectorExpr? && IsKlog(info, call.fun.x)
    requires Deprecations in enabled && call.fun.sel == "KObjs"
    ensures var r := FunctionExprReport(enabled, info, call);
            |r| > 0 && r[0] == Deprecated(IsDeprecatedContextualCall("KObjs").0)
  {
    DeprecatedIsContextual("KObjs");
  }

  /** Every format specifier diagnostic in `r` is the one computed for the
      call. */
  predicate FormatFindingsOf(call: Call, r: seq<Diagnostic>)
  {
    forall d | d in r && d.FormatSpecifierUsed? :: FormatSpecifierFinding(call) == Some(d)
  }

  lemma FormatFindingsAppend(call: Call, a: seq<Diagnostic>, b: seq<Diagnostic>)
    requires FormatFindingsOf(call, a) && FormatFindingsOf(call, b)
    ensures FormatFindingsOf(call, a + b)
  {
  }

  /** Only the parameters check reports a format specifier, and it reports
      the computed one. */
  lemma PartsFormatFindings(enabled: set<Check>, receiver: Receiver, info: TypesInfo, call: Call)
    requires call.fun.SelectorExpr? && SliceableArgs(info, call) && ReceiverOf(info, call) == Some(receiver)
    ensures FormatFindingsOf(call, ParametersReport(enabled, receiver, info, call))
    ensures FormatFindingsOf(call, HelpersReport(enabled, call.fun.sel))
    ensures FormatFindingsOf(call, VerbosityReport(enabled, info, call))
    ensures FormatFindingsOf(call, KeyCheckReport(enabled, receiver, info, call))
  {
  }

  lemma KlogArgumentsFormatFindings(enabled: set<Check>, info: TypesInfo, call: Call)
    requires call.fun.SelectorExpr? && SliceableArgs(info, call) && ReceiverOf(info, call) == Some(Klog)
    ensures FormatFindingsOf(call, KlogArgumentsReport(enabled, info, call))
  {
    var parameters := ParametersReport(enabled, Klog, info, call);
    var verbosity := VerbosityReport(enabled, info, call);
    PartsFormatFindings(enabled, Klog, info, call);
    FormatFindingsAppend(call, parameters, verbosity);
    FormatFindingsAppend(call, parameters + verbosity, KeyCheckReport(enabled, Klog, info, call));
  }

  lemma LogrFormatFindings(enabled: set<Check>, info: TypesInfo, call: Call)
    requires call.fun.SelectorExpr? && SliceableArgs(info, call) && ReceiverOf(info, call) == Some(Logr)
    ensures FormatFindingsOf(call, LogrReport(enabled, info, call))
  {
    var parameters := ParametersReport(enabled, Logr, info, call);
    var helpers := HelpersReport(enabled, call.fun.sel);
    var verbosity := VerbosityReport(enabled, info, call);
    PartsFormatFindings(enabled, Logr, info, call);
    FormatFindingsAppend(call, parameters, helpers);
    FormatFindingsAppend(call, parameters + helpers, verbosity);
    FormatFindingsAppend(call, parameters + helpers + verbosity, KeyCheckReport(enabled, Logr, info, call));
  }

  /** A format specifier diagnostic is only ever the one
      `checkForFormatSpecifier` computes for the call: the function name does
      not end in "f" and one of the literal arguments holds the specifier. */
  lemma FormatFindingsJustified(enabled: set<Check>, info: TypesInfo, call: Call)
    requires SliceableArgs(info, call)
    ensures FormatFindingsOf(call, FunctionExprReport(enabled, info, call))
  {
    if call.fun.SelectorExpr? && ReceiverOf(info, call) == Some(Klog) {
      var fName := call.fun.sel;
      if !(Contextual in enabled && !IsContextualCall(fName)) {
        if Structured in enabled && IsUnstructured(fName) {
          FormatFindingsAppend(call, DeprecationReport(enabled, fName), [UnstructuredCall(fName)]);
        } else {
          KlogArgumentsFormatFindings(enabled, info, call);
          FormatFindingsAppend(call, DeprecationReport(enabled, fName), KlogArgumentsReport(enabled, info, call));
        }
      }
    } else if call.fun.SelectorExpr? && ReceiverOf(info, call) == Some(Logr) {
      LogrFormatFindings(enabled, info, call);
    }
  }

  /** No diagnostic about a key/value list. */
  predicate NoKeyListFindings(r: seq<Diagnostic>)
  {
    forall d | d in r :: !d.IsKeyFinding() && !d.NotKeyValuePairs?
  }

  lemma NoKeyListFindingsAppend(a: seq<Diagnostic>, b: seq<Diagnostic>)
    requires NoKeyListFindings(a) && NoKeyListFindings(b)
    ensures NoKeyListFindings(a + b)
  {
  }

  /** With a format specifier in the call, the klog argument checks report
      no key/value diagnostic. */
  lemma KlogArgumentsNoKeyListFindings(enabled: set<Check>, info: TypesInfo, call: Call)
    requires call.fun.SelectorExpr? && SliceableArgs(info, call) && ReceiverOf(info, call) == Some(Klog)
    requires CheckFormatSpecifier(call)
    ensures NoKeyListFindings(KlogArgumentsReport(enabled, info, call))
  {
    var fName := call.fun.sel;
    if Parameters in enabled && FormatSpecifierFinding(call).Some? {
      assert KlogArgumentsReport(enabled, info, call) == [FormatSpecifierFinding(call).value];
    } else {
      if Parameters in enabled {
        // The specifier is there, so it was not reported only because the
        // name ends in "f"; such a function takes no key/value list.
        assert HasSuffix(fName, "f");
        assert KeyValuesStart(Klog, fName).None?;
      }
      var verbosity := VerbosityReport(enabled, info, call);
      assert ParametersReport(enabled, Klog, info, call) == [];
      assert KeyCheckReport(enabled, Klog, info, call) == [];
      assert KlogArgumentsReport(enabled, info, call) == [] + verbosity + [];
      assert NoKeyListFindings(verbosity);
    }
  }

  lemma DeprecationNoKeyListFindings(enabled: set<Check>, fName: string)
    ensures NoKeyListFindings(DeprecationReport(enabled, fName))
  {
  }

  /** The same for the klog branch alone. */
  lemma KlogNoKeyListFindings(enabled: set<Check>, info: TypesInfo, call: Call)
    requires call.fun.SelectorExpr? && SliceableArgs(info, call) && ReceiverOf(info, call) == Some(Klog)
    requires CheckFormatSpecifier(call)
    ensures NoKeyListFindings(KlogReport(enabled, info, call))
  {
    var fName := call.fun.sel;
    var deprecation := DeprecationReport(enabled, fName);
    DeprecationNoKeyListFindings(enabled, fName);
    if Contextual in enabled && !IsContextualCall(fName) {
    } else if Structured in enabled && IsUnstructured(fName) {
      NoKeyListFindingsAppend(deprecation, [UnstructuredCall(fName)]);
    } else {
      var arguments := KlogArgumentsReport(enabled, info, call);
      KlogArgumentsNoKeyListFindings(enabled, info, call);
      NoKeyListFindingsAppend(deprecation, arguments);
      assert KlogReport(enabled, info, call) == deprecation + arguments;
    }
  }

  /** A call with a format specifier in a literal argument gets no key/value
      diagnostic through klog: the parameters check stops at the specifier, or
      the function is a formatted one (`Infof`) that has no key/value list. */
  lemma KlogFormatSuppressesKeyChecks(enabled: set<Check>, info: TypesInfo, call: Call)
    requires SliceableArgs(info, call) && call.fun.SelectorExpr? && IsKlog(info, call.fun.x)
    requires CheckFormatSpecifier(call)
    ensures NoKeyListFindings(FunctionExprReport(enabled, info, call))
  {
    KlogNoKeyListFindings(enabled, info, call);
  }

  /** Through a logger the parameters check does not stop at a format
      specifier: the key/value list of `Info` and `Error` is still validated,
      so a list of odd length is reported next to the specifier. */
  lemma LogrFormatKeepsParameterCheck(enabled: set<Check>, info: TypesInfo, call: Call)
    requires SliceableArgs(info, call) && call.fun.SelectorExpr? && !IsKlog(info, call.fun.x) && IsGoLogger(info, call.fun.x)
    requires Parameters in enabled && FormatSpecifierFinding(call).Some?
    requires call.fun.sel == "Info" && 1 <= |call.args| && (|call.args| - 1) % 2 == 1
    ensures var r := FunctionExprReport(enabled, info, call);
            |r| >= 2 && r[0] == FormatSpecifierFinding(call).value && r[1] == NotKeyValuePairs("Info")
  {
    assert KeyValuesStart(Logr, "Info") == Some(1);
    assert |call.args[1..]| == |call.args| - 1;
    var parameters := ParametersReport(enabled, Logr, info, call);
    var helpers := HelpersReport(enabled, "Info");
    var verbosity := VerbosityReport(enabled, info, call);
    var keys := KeyCheckReport(enabled, Logr, info, call);
    assert KeyListReport(AsciiRule, Logr, info, call) == [NotKeyValuePairs("Info")];
    assert parameters == [FormatSpecifierFinding(call).value, NotKeyValuePairs("Info")];
    AppendAssoc(parameters, helpers, verbosity);
    AppendAssoc(parameters, helpers + verbosity, keys);
    assert FunctionExprReport(enabled, info, call) == parameters + (helpers + verbosity + keys);
  }

  /** With the parameters and key checks on, both validators run on the
      key/value list of `klog.InfoS`, so an odd-length list is reported
      twice: once by `isKeysValid` and once by `keysCheck`. */
  lemma OddInfoSReportedTwice(info: TypesInfo, call: Call)
    requires SliceableArgs(info, call) && call.fun.SelectorExpr? && IsKlog(info, call.fun.x)
    requires call.fun.sel == "InfoS" && !CheckFormatSpecifier(call)
    requires 1 <= |call.args| && (|call.args| - 1) % 2 == 1
    ensures FunctionExprReport({Parameters, Key}, info, call) == [NotKeyValuePairs("InfoS"), NotKeyValuePairs("InfoS")]
  {
    var enabled := {Parameters, Key};
    assert KeyValuesStart(Klog, "InfoS") == Some(1);
    assert |call.args[1..]| == |call.args| - 1;
    assert FormatSpecifierFinding(call).None?;
    var keyList := [NotKeyValuePairs("InfoS")];
    assert KeyListReport(AsciiRule, Klog, info, call) == keyList;
    assert KeyListReport(PatternRule, Klog, info, call) == keyList;
    var parameters := ParametersReport(enabled, Klog, info, call);
    var verbosity := VerbosityReport(enabled, info, call);
    var keys := KeyCheckReport(enabled, Klog, info, call);
    assert parameters == keyList && verbosity == [] && keys == keyList;
    assert DeprecationReport(enabled, "InfoS") == [];
    assert KlogArgumentsReport(enabled, info, call) == parameters + verbosity + keys;
  }

  /** A call that is not a selector call, or whose receiver is neither
      klog, a `klog.Verbose` value, a logger, nor the logr package, draws no
      diagnostic. */
  lemma OtherCallsIgnored(enabled: set<Check>, info: TypesInfo, call: Call)
    requires SliceableArgs(info, call)
    requires call.fun.SelectorExpr? ==>
               !IsKlog(info, call.fun.x) && !IsGoLogger(info, call.fun.x) && !IsPackage(info, call.fun.x, LogrPath)
    ensures FunctionExprReport(enabled, info, call) == []
  {
  }

  /** With every check disabled nothing is reported. */
  lemma NothingEnabledNothingReported(info: TypesInfo, call: Call)
    requires SliceableArgs(info, call)
    ensures FunctionExprReport({}, info, call) == []
  {
    if call.fun.SelectorExpr? && ReceiverOf(info, call).Some? {
      var receiver := ReceiverOf(info, call).value;
      assert ParametersReport({}, receiver, info, call) == [];
      assert KeyCheckReport({}, receiver, info, call) == [];
    }
  }

  /** `WithValues` and `WithName` on a logger are reported once the
      with-helpers check is on, after whatever the parameters check found. */
  lemma WithHelpersReported(enabled: set<Check>, info: TypesInfo, call: Call)
    requires SliceableArgs(info, call) && call.fun.SelectorExpr? && !IsKlog(info, call.fun.x) && IsGoLogger(info, call.fun.x)
    requires WithHelpers in enabled && (call.fun.sel == "WithValues" || call.fun.sel == "WithName")
    ensures var r := FunctionExprReport(enabled, info, call);
            var p := |ParametersReport(enabled, Logr, info, call)|;
            p < |r| && r[p] == ThroughKlogrLogger(call.fun.sel)
  {
  }

  /** `logr.NewContext` is reported once the with-helpers check is on, and
      is then the only diagnostic. */
  lemma NewContextReported(enabled: set<Check>, info: TypesInfo, call: Call)
    requires SliceableArgs(info, call) && call.fun.SelectorExpr? && call.fun.sel == "NewContext"
    requires IsPackage(info, call.fun.x, LogrPath) && !IsKlog(info, call.fun.x) && !IsGoLogger(info, call.fun.x)
    ensures FunctionExprReport(enabled, info, call) == if WithHelpers in enabled then [ThroughKlogrNewContext("NewContext")] else []
  {
  }
}
