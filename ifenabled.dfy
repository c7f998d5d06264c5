/** The rule against `if klog.V(n).Enabled()` and `if logger.V(n).Enabled()`:
    the result of `V` should be stored in a variable and reused
    (`checkForIfEnabled`). */
module IfEnabled {
  import opened GoAst
  import opened Report

  /** The expression a chain of selectors `a.b.c` starts from: the first
      operand, going left, that is not itself a selector. */
  function ChainBase(e: Expr): (r: Expr)
    ensures !r.SelectorExpr?
    ensures !e.SelectorExpr? ==> r == e
  {
    if e.SelectorExpr? then ChainBase(e.x) else e
  }

  /** `base.p0.p1…`: selects the fields of `path` one after the other. */
  function SelectPath(base: Expr, path: seq<string>): Expr
  {
    if path == [] then base else SelectorExpr(SelectPath(base, path[..|path| - 1]), path[|path| - 1])
  }

  /** Whatever fields are selected, the chain starts from its base. */
  lemma {:induction false} ChainBaseOfPath(base: Expr, path: seq<string>)
    requires !base.SelectorExpr?
    ensures ChainBase(SelectPath(base, path)) == base
  {
    if path != [] {
      ChainBaseOfPath(base, path[..|path| - 1]);
    }
  }

  /** The call `_.V(…)` whose `Enabled()` is the condition, if the condition
      has the shape the rule looks for. */
  predicate IsVEnabled(info: TypesInfo, cond: Expr)
  {
    && cond.CallExpr?
    && cond.fun.SelectorExpr?
    && cond.fun.sel == "Enabled"
    && (IsKlogVerbose(info, cond.fun.x) || IsGoLogger(info, cond.fun.x))
    && cond.fun.x.CallExpr?
    && cond.fun.x.fun.SelectorExpr?
    && cond.fun.x.fun.sel == "V"
  }

  /** The variable name suggested for the result of `V`: "klogV" for klog;
      for a logger, the identifier its selector chain starts from, or
      "logger" when the chain starts from something else. */
  function SuggestedVariable(info: TypesInfo, vSelector: Expr): string
    requires vSelector.SelectorExpr?
  {
    if !IsGoLogger(info, vSelector.x) then "klogV"
    else
      var root := ChainBase(vSelector.x);
      if root.Ident? then root.name else "logger"
  }

  /** The diagnostic `checkForIfEnabled` reports for an if statement's
      condition: the call to suggest and the variable to store it in. */
  function IfEnabledFinding(info: TypesInfo, cond: Expr): (r: Option<Diagnostic>)
    ensures r.Some? <==> IsVEnabled(info, cond)
    ensures r.Some? ==> r.value.StoreVResult?
  {
    if !IsVEnabled(info, cond) then None
    else
      var vSelector := cond.fun.x.fun;
      var varName := SuggestedVariable(info, vSelector);
      var funcCall := if IsGoLogger(info, vSelector.x) then varName + ".V" else "klog.V";
      Some(StoreVResult(funcCall, varName))
  }

  /** `checkForIfEnabled`: the walk to the root of the selector chain is a
      loop. */
  method CheckForIfEnabled(pass: Pass, cond: Expr)
    modifies pass
    ensures pass.diagnostics == old(pass.diagnostics) + Reported(IfEnabledFinding(pass.typesInfo, cond))
  {
    if !cond.CallExpr? || !cond.fun.SelectorExpr? || cond.fun.sel != "Enabled" {
      return;
    }
    var selExpr := cond.fun;
    if !IsKlogVerbose(pass.typesInfo, selExpr.x) && !IsGoLogger(pass.typesInfo, selExpr.x) {
      return;
    }
    if !selExpr.x.CallExpr? || !selExpr.x.fun.SelectorExpr? || selExpr.x.fun.sel != "V" {
      return;
    }
    var subSelExpr := selExpr.x.fun;
    var varName := "klogV";
    var funcCall := "klog.V";
    if IsGoLogger(pass.typesInfo, subSelExpr.x) {
      varName := "logger";
      var root := subSelExpr;
      while root.x.SelectorExpr?
        invariant root.SelectorExpr?
        invariant ChainBase(root.x) == ChainBase(subSelExpr.x)
        decreases root
      {
        root := root.x;
      }
      if root.x.Ident? {
        varName := root.x.name;
      }
      funcCall := varName + ".V";
    }
    pass.Report(StoreVResult(funcCall, varName));
  }

  /** `logger.V(n).Enabled()`, and the same through fields (`s.a.V(n)`),
      suggest storing into a variable named after the identifier the chain
      starts from and calling its `V`. */
  lemma LoggerSuggestion(info: TypesInfo, name: string, obj: Option<Object>, path: seq<string>, n: Expr)
    requires var recv := SelectPath(Ident(name, obj), path);
             IsGoLogger(info, recv) && IsGoLogger(info, CallExpr(SelectorExpr(recv, "V"), [n]))
    ensures var recv := SelectPath(Ident(name, obj), path);
            IfEnabledFinding(info, CallExpr(SelectorExpr(CallExpr(SelectorExpr(recv, "V"), [n]), "Enabled"), []))
              == Some(StoreVResult(name + ".V", name))
  {
    ChainBaseOfPath(Ident(name, obj), path);
  }

  /** A logger whose selector chain starts from something other than an
      identifier, as in `getLogger().V(n).Enabled()`, suggests the default
      variable `logger` and its `V`. */
  lemma DefaultLoggerSuggestion(info: TypesInfo, base: Expr, path: seq<string>, n: Expr)
    requires !base.SelectorExpr? && !base.Ident?
    requires var recv := SelectPath(base, path);
             IsGoLogger(info, recv) && IsGoLogger(info, CallExpr(SelectorExpr(recv, "V"), [n]))
    ensures var recv := SelectPath(base, path);
            IfEnabledFinding(info, CallExpr(SelectorExpr(CallExpr(SelectorExpr(recv, "V"), [n]), "Enabled"), []))
              == Some(StoreVResult("logger.V", "logger"))
  {
    ChainBaseOfPath(base, path);
    assert "logger" + ".V" == "logger.V";
  }

  /** `klog.V(n).Enabled()` suggests `klogV := klog.V(n)`. */
  lemma KlogSuggestion(info: TypesInfo, recv: Expr, n: Expr)
    requires !IsGoLogger(info, recv) && IsKlogVerbose(info, CallExpr(SelectorExpr(recv, "V"), [n]))
    ensures IfEnabledFinding(info, CallExpr(SelectorExpr(CallExpr(SelectorExpr(recv, "V"), [n]), "Enabled"), []))
              == Some(StoreVResult("klog.V", "klogV"))
  {
  }

  /** `logger.Enabled()`, without `V`, is fine. */
  lemma PlainEnabledAccepted(info: TypesInfo, recv: Expr)
    requires !recv.CallExpr?
    ensures IfEnabledFinding(info, CallExpr(SelectorExpr(recv, "Enabled"), [])).None?
  {
  }
}
