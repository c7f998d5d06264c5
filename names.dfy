/** The fixed name tables of logcheck: the unstructured klog functions, the
    klog functions allowed under contextual logging, and the deprecated
    contextual helpers. */
module NameTables {
  import opened Strings

  /** klog functions that should not be used after the migration to
      structured logging. */
  const UnstructuredNames: seq<string> := [
    "Infof", "Info", "Infoln", "InfoDepth",
    "Warning", "Warningf", "Warningln", "WarningDepth",
    "Error", "Errorf", "Errorln", "ErrorDepth",
    "Fatal", "Fatalf", "Fatalln", "FatalDepth",
    "Exit", "Exitf", "Exitln", "ExitDepth"
  ]

  /** klog functions that may still be called once contextual logging is
      required; every other klog function is rejected. */
  const ContextualNames: seq<string> := [
    "Background",
    "ClearLogger",
    "ContextualLogger",
    "EnableContextualLogging",
    "FlushAndExit",
    "FlushLogger",
    "FromContext",
    "InitFlags",
    "KObj",
    "KObjs",
    "KObjSlice",
    "KRef",
    "LoggerWithName",
    "LoggerWithValues",
    "NewContext",
    "SetLogger",
    "SetLoggerWithOptions",
    "StartFlushDaemon",
    "StopFlushDaemon",
    "TODO"
  ]

  /** Deprecated contextual helpers and their replacements. */
  const DeprecatedHelpers: map<string, string> := map["KObjs" := "KObjSlice"]

  predicate IsUnstructured(fName: string)
  {
    fName in UnstructuredNames
  }

  predicate IsContextualCall(fName: string)
  {
    fName in ContextualNames
  }

  /** The message reported for a deprecated helper and its replacement. */
  function DeprecationMessage(fName: string, replacement: string): (message: string)
    ensures Contains(message, Quote(fName)) && Contains(message, Quote(replacement))
  {
    var head := "Detected usage of deprecated helper ";
    var middle := ". Please switch to ";
    var tail := " instead.";
    ContainsMiddle(head, Quote(fName), middle + Quote(replacement) + tail);
    ContainsMiddle(head + Quote(fName) + middle, Quote(replacement), tail);
    assert head + Quote(fName) + (middle + Quote(replacement) + tail)
        == head + Quote(fName) + middle + Quote(replacement) + tail;
    head + Quote(fName) + middle + Quote(replacement) + tail
  }

  /** Whether `fName` is a deprecated helper, with the message that says so
      and names its replacement; the message is empty for every other name. */
  function IsDeprecatedContextualCall(fName: string): (r: (string, bool))
    ensures r.1 <==> fName == "KObjs"
    ensures r.1 ==> Contains(r.0, Quote(fName)) && Contains(r.0, Quote("KObjSlice"))
    ensures !r.1 ==> r.0 == ""
  {
    if fName in DeprecatedHelpers then
      (DeprecationMessage(fName, DeprecatedHelpers[fName]), true)
    else
      ("", false)
  }

  /** The unstructured functions are exactly the four variants (plain,
      formatted, line, depth) of the five severities Info, Warning, Error, Fatal
      and Exit. */
  const Severities: seq<string> := ["Info", "Warning", "Error", "Fatal", "Exit"]
  const Variants: seq<string> := ["", "f", "ln", "Depth"]

  predicate IsSeverityVariant(fName: string)
  {
    exists i, j | 0 <= i < |Severities| && 0 <= j < |Variants| :: fName == Severities[i] + Variants[j]
  }

  /** Where severity `i` in variant `j` sits in the table: row `i`, with
      the plain and formatted Info variants listed the other way round. */
  function Slot(i: nat, j: nat): nat
  {
    if i == 0 && j <= 1 then 1 - j else 4 * i + j
  }

  lemma UnstructuredLayout(i: nat, j: nat)
    requires i < |Severities| && j < |Variants|
    ensures Slot(i, j) < |UnstructuredNames|
    ensures Severities[i] + Variants[j] == UnstructuredNames[Slot(i, j)]
  {
  }

  lemma UnstructuredAreSeverityVariants(fName: string)
    ensures IsUnstructured(fName) <==> IsSeverityVariant(fName)
  {
    if IsUnstructured(fName) {
      var k :| 0 <= k < |UnstructuredNames| && UnstructuredNames[k] == fName;
      var i, j := k / 4, if k / 4 == 0 && k % 4 <= 1 then 1 - k % 4 else k % 4;
      UnstructuredLayout(i, j);
      assert Slot(i, j) == k;
    }
    if IsSeverityVariant(fName) {
      var i, j :| 0 <= i < |Severities| && 0 <= j < |Variants| && fName == Severities[i] + Variants[j];
      UnstructuredLayout(i, j);
    }
  }

  /** No unstructured function is on the contextual allow-list. */
  lemma UnstructuredNotContextual(fName: string)
    requires IsUnstructured(fName)
    ensures !IsContextualCall(fName)
  {
    var k :| 0 <= k < |UnstructuredNames| && UnstructuredNames[k] == fName;
    RowNotContextual(k / 4, k % 4, fName);
  }

  /** The check above, one severity at a time. */
  lemma RowNotContextual(row: nat, column: nat, fName: string)
    requires row < |Severities| && column < 4 && fName == UnstructuredNames[4 * row + column]
    ensures fName !in ContextualNames
  {
  }

  /** Every deprecated helper is on the contextual allow-list, so its
      deprecation is still reported when contextual logging is required. */
  lemma DeprecatedIsContextual(fName: string)
    requires IsDeprecatedContextualCall(fName).1
    ensures IsContextualCall(fName) && !IsUnstructured(fName)
  {
  }
}
