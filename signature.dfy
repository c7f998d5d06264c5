/** The rule that a function should accept a context or a logger, but not
    both (`checkForContextAndLogger`). */
module Signature {
  import opened GoAst
  import opened Report

  /** Some parameter has type `logr.Logger`. */
  predicate AcceptsLogger(info: TypesInfo, params: seq<Expr>)
  {
    exists i | 0 <= i < |params| :: IsGoLogger(info, params[i])
  }

  /** Some parameter has type `context.Context`. */
  predicate AcceptsContext(info: TypesInfo, params: seq<Expr>)
  {
    exists i | 0 <= i < |params| :: IsContext(info, params[i])
  }

  /** `checkForContextAndLogger`: scans the parameter types of a function
      type, noting a logger and a context, and reports once if it saw both.
      `params` holds the type expression of each parameter field. */
  method CheckForContextAndLogger(pass: Pass, params: seq<Expr>)
    modifies pass
    ensures pass.diagnostics == old(pass.diagnostics) +
              if AcceptsLogger(pass.typesInfo, params) && AcceptsContext(pass.typesInfo, params)
              then [ContextAndLogger] else []
  {
    var haveLogger, haveContext := false, false;
    for k := 0 to |params|
      invariant haveLogger <==> exists i | 0 <= i < k :: IsGoLogger(pass.typesInfo, params[i])
      invariant haveContext <==> exists i | 0 <= i < k :: IsContext(pass.typesInfo, params[i])
    {
      if params[k] in pass.typesInfo.namedTypes {
        var typeName := pass.typesInfo.namedTypes[params[k]];
        if typeName == TypeName(LogrPath, "Logger") {
          haveLogger := true;
        } else if typeName == TypeName("context", "Context") {
          haveContext := true;
        }
      }
    }
    if haveLogger && haveContext {
      pass.Report(ContextAndLogger);
    }
  }
}
