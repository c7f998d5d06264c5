/** The checks logcheck can switch on and off, the diagnostics it reports,
    and the analysis pass that collects them. */
module Report {
  import opened GoAst

  /** The named checks. Which of them are enabled for the file at hand is
      decided by the analyser's configuration and is passed to the rules as
      a set. */
  datatype Check = Structured | Parameters | Contextual | WithHelpers | VerbosityZero | Key | Deprecations

  /** A reported diagnostic: its kind and the names its message mentions. */
  datatype Diagnostic =
    | NotContextual(fName: string)
    | Deprecated(message: string)
    | UnstructuredCall(fName: string)
    | FormatSpecifierUsed(fName: string, specifier: string)
    | NotKeyValuePairs(funName: string)
    | KeyNotInlinedString(key: Expr)
    | KeyNotAscii(literal: string)
    | KeyBadPattern(literal: string)
    | VerbosityZeroCall
    | ThroughKlogrLogger(fName: string)
    | ThroughKlogrNewContext(fName: string)
    | ContextAndLogger
    | StoreVResult(funcCall: string, varName: string)
  {
    /** The diagnostics that report a bad key of a key/value list. */
    predicate IsKeyFinding()
    {
      KeyNotInlinedString? || KeyNotAscii? || KeyBadPattern?
    }
  }

  /** At most one diagnostic, as a sequence to append. */
  function Reported(d: Option<Diagnostic>): (r: seq<Diagnostic>)
    ensures |r| <= 1
    ensures r == [] <==> d.None?
    ensures d.Some? ==> r[0] == d.value
  {
    match d
    case None => []
    case Some(x) => [x]
  }

  /** Reporting two groups of diagnostics one after the other appends both. */
  lemma AppendAssoc(start: seq<Diagnostic>, a: seq<Diagnostic>, b: seq<Diagnostic>)
    ensures start + a + b == start + (a + b)
  {
  }

  /** One analysis pass over a package: the type information it was given and
      the diagnostics reported so far. */
  class Pass {
    const typesInfo: TypesInfo
    var diagnostics: seq<Diagnostic>

    constructor (typesInfo: TypesInfo)
      ensures this.typesInfo == typesInfo && diagnostics == []
    {
      this.typesInfo := typesInfo;
      diagnostics := [];
    }

    /** `pass.Report`: appends one diagnostic. */
    method Report(d: Diagnostic)
      modifies this
      ensures diagnostics == old(diagnostics) + [d]
    {
      diagnostics := diagnostics + [d];
    }
  }
}
