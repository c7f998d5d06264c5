/** The verbosity-zero rule: logging through `V(0)` is the same as logging
    without it and is reported (`isVerbosityZero`, `checkForVerbosityZero`). */
module Verbosity {
  import opened GoAst
  import opened Report

  /** The literal `0`, spelt exactly so. */
  predicate IsZeroLiteral(e: Expr)
  {
    e.BasicLit? && e.value == "0"
  }

  /** An identifier resolved to a constant whose declaration gives exactly
      one value, the literal `0`. */
  predicate IsZeroConstant(e: Expr)
  {
    && e.Ident?
    && e.obj.Some?
    && e.obj.value.kind == Con
    && e.obj.value.decl.ValueSpec?
    && |e.obj.value.decl.values| == 1
    && IsZeroLiteral(e.obj.value.decl.values[0])
  }

  /** `isVerbosityZero`: the expression is a call `_.V(a)` with one argument
      that is the literal 0 or a constant declared as it. */
  function IsVerbosityZero(expr: Expr): (b: bool)
    ensures b <==> && expr.CallExpr? && expr.fun.SelectorExpr? && expr.fun.sel == "V" && |expr.args| == 1
                   && (IsZeroLiteral(expr.args[0]) || IsZeroConstant(expr.args[0]))
  {
    if !expr.CallExpr? then false
    else if !expr.fun.SelectorExpr? || expr.fun.sel != "V" || |expr.args| != 1 then false
    else
      var arg := expr.args[0];
      if arg.BasicLit? then arg.value == "0"
      else if arg.Ident? && arg.obj.Some? && arg.obj.value.kind == Con then
        match arg.obj.value.decl
        case OtherDecl => false
        case ValueSpec(values) =>
          if |values| != 1 then false
          else values[0].BasicLit? && values[0].value == "0"
      else false
  }

  /** What `checkForVerbosityZero` reports for a call: only a method called
      on a `klog.Verbose` or `logr.Logger` value that is itself `V(0)`. */
  function VerbosityZeroFinding(info: TypesInfo, call: Call): (r: Option<Diagnostic>)
    ensures r.Some? <==> && call.fun.SelectorExpr?
                         && (IsKlogVerbose(info, call.fun.x) || IsGoLogger(info, call.fun.x))
                         && IsVerbosityZero(call.fun.x)
    ensures r.Some? ==> r.value == VerbosityZeroCall
  {
    if !call.fun.SelectorExpr? then None
    else
      var x := call.fun.x;
      if !IsKlogVerbose(info, x) && !IsGoLogger(info, x) then None
      else if IsVerbosityZero(x) then Some(VerbosityZeroCall)
      else None
  }

  /** `checkForVerbosityZero`. */
  method CheckForVerbosityZero(pass: Pass, call: Call)
    modifies pass
    ensures pass.diagnostics == old(pass.diagnostics) + Reported(VerbosityZeroFinding(pass.typesInfo, call))
  {
    if !call.fun.SelectorExpr? {
      return;
    }
    var expr := call.fun.x;
    if !IsKlogVerbose(pass.typesInfo, expr) && !IsGoLogger(pass.typesInfo, expr) {
      return;
    }
    if IsVerbosityZero(expr) {
      pass.Report(VerbosityZeroCall);
    }
  }

  /** A call through `V(a)` on klog or on a logger is reported exactly when
      the zero is spelt as the literal `0` or as a constant declared as it; a
      constant declared with several values is not followed. */
  lemma VerbosityZeroReported(info: TypesInfo, receiver: Expr, arg: Expr, selector: string, args: seq<Expr>)
    requires var v := CallExpr(SelectorExpr(receiver, "V"), [arg]);
             IsKlogVerbose(info, v) || IsGoLogger(info, v)
    ensures VerbosityZeroFinding(info, CallExpr(SelectorExpr(CallExpr(SelectorExpr(receiver, "V"), [arg]), selector), args)).Some?
            <==> IsZeroLiteral(arg) || IsZeroConstant(arg)
  {
  }

  /** A method called on a value that is neither a `klog.Verbose` nor a
      logger is never reported, even when that value is `V(0)`. */
  lemma OtherReceiversIgnored(info: TypesInfo, call: Call)
    requires call.fun.SelectorExpr? && !IsKlogVerbose(info, call.fun.x) && !IsGoLogger(info, call.fun.x)
    ensures VerbosityZeroFinding(info, call).None?
  {
  }
}
