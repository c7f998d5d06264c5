/** Detection of printf-style format specifiers in the literal arguments of
    a logging call (`hasFormatSpecifier`, `checkFormatSpecifier`,
    `checkForFormatSpecifier`). */
module FormatSpecifiers {
  import opened Strings
  import opened GoAst
  import opened Report

  /** The specifiers searched for, in search order ("%q" is listed twice). */
  const Specifiers: seq<string> := [
    "%v", "%+v", "%#v", "%T",
    "%t", "%b", "%c", "%d", "%o", "%O", "%q", "%x", "%X", "%U",
    "%e", "%E", "%f", "%F", "%g", "%G", "%s", "%q", "%p"
  ]

  /** Index of the first of `specs` that `text` contains. */
  function FirstContained(text: string, specs: seq<string>): (r: Option<nat>)
    ensures r.Some? ==> r.value < |specs| && Contains(text, specs[r.value])
    ensures r.Some? ==> forall j | 0 <= j < r.value :: !Contains(text, specs[j])
    ensures r.None? ==> forall j | 0 <= j < |specs| :: !Contains(text, specs[j])
  {
    if specs == [] then None
    else if Contains(text, specs[0]) then Some(0)
    else match FirstContained(text, specs[1..])
      case None => None
      case Some(k) => Some(k + 1)
  }

  /** The specifier a single argument shows: the first listed specifier that
      occurs in it, if it is a basic literal. */
  function SpecifierOf(arg: Expr): (r: Option<string>)
    ensures r.Some? ==> arg.BasicLit? && r.value in Specifiers && Contains(arg.value, r.value)
    ensures r.Some? ==> exists k | 0 <= k < |Specifiers| :: Specifiers[k] == r.value && forall j | 0 <= j < k :: !Contains(arg.value, Specifiers[j])
    ensures r.None? <==> !arg.BasicLit? || forall k | 0 <= k < |Specifiers| :: !Contains(arg.value, Specifiers[k])
  {
    if arg.BasicLit? then
      match FirstContained(arg.value, Specifiers)
      case None => None
      case Some(k) => Some(Specifiers[k])
    else None
  }

  /** `hasFormatSpecifier`: the first specifier of the first literal argument
      that contains one, or ("", false) when none does. */
  function HasFormatSpecifier(args: seq<Expr>): (r: (string, bool))
    ensures r.1 <==> exists i | 0 <= i < |args| :: SpecifierOf(args[i]).Some?
    ensures !r.1 ==> r.0 == ""
    ensures r.1 ==> exists i | 0 <= i < |args| ::
                      SpecifierOf(args[i]) == Some(r.0) && forall j | 0 <= j < i :: SpecifierOf(args[j]).None?
  {
    if args == [] then ("", false)
    else match SpecifierOf(args[0])
      case Some(s) => (s, true)
      case None =>
        var r := HasFormatSpecifier(args[1..]);
        assert forall i | 1 <= i < |args| :: args[i] == args[1..][i - 1];
        FirstSpecifierShift(args, r);
        r
  }

  /** The argument found first in the tail is found first in the whole list
      when the head shows no specifier. */
  lemma FirstSpecifierShift(args: seq<Expr>, r: (string, bool))
    requires args != [] && SpecifierOf(args[0]).None?
    requires r.1 ==> exists i | 0 <= i < |args| - 1 ::
                       SpecifierOf(args[1..][i]) == Some(r.0) && forall j | 0 <= j < i :: SpecifierOf(args[1..][j]).None?
    ensures r.1 ==> exists i | 0 <= i < |args| ::
                      SpecifierOf(args[i]) == Some(r.0) && forall j | 0 <= j < i :: SpecifierOf(args[j]).None?
  {
    if r.1 {
      var i :| 0 <= i < |args| - 1 && SpecifierOf(args[1..][i]) == Some(r.0)
               && forall j | 0 <= j < i :: SpecifierOf(args[1..][j]).None?;
      assert SpecifierOf(args[i + 1]) == Some(r.0);
      forall j | 0 <= j < i + 1
        ensures SpecifierOf(args[j]).None?
      {
        if j > 0 {
          assert args[j] == args[1..][j - 1];
        }
      }
    }
  }

  /** `checkFormatSpecifier`: the call is a selector call with a specifier
      in one of its literal arguments, whatever the function's name. */
  predicate CheckFormatSpecifier(call: Call)
    ensures CheckFormatSpecifier(call) ==> call.fun.SelectorExpr? && call.args != []
  {
    call.fun.SelectorExpr? && HasFormatSpecifier(call.args).1
  }

  /** The diagnostic `checkForFormatSpecifier` reports, if any: calls whose
      name ends in "f" are allowed to use specifiers. */
  function FormatSpecifierFinding(call: Call): (r: Option<Diagnostic>)
    ensures r.Some? <==> call.fun.SelectorExpr? && !HasSuffix(call.fun.sel, "f") && CheckFormatSpecifier(call)
    ensures r.Some? ==> r.value.FormatSpecifierUsed? && r.value.fName == call.fun.sel
                        && exists i | 0 <= i < |call.args| :: call.args[i].BasicLit? && Contains(call.args[i].value, r.value.specifier)
  {
    if call.fun.SelectorExpr? then
      var fName := call.fun.sel;
      if HasSuffix(fName, "f") then None
      else
        var (specifier, found) := HasFormatSpecifier(call.args);
        if found then Some(FormatSpecifierUsed(fName, specifier)) else None
    else None
  }

  /** `checkForFormatSpecifier`: reports the finding and says whether there
      was one. */
  method CheckForFormatSpecifier(pass: Pass, call: Call) returns (found: bool)
    modifies pass
    ensures found <==> FormatSpecifierFinding(call).Some?
    ensures pass.diagnostics == old(pass.diagnostics) + Reported(FormatSpecifierFinding(call))
  {
    found := false;
    if call.fun.SelectorExpr? {
      var fName := call.fun.sel;
      if HasSuffix(fName, "f") {
        return;
      }
      var specifier, hasSpecifier := HasFormatSpecifier(call.args).0, HasFormatSpecifier(call.args).1;
      if hasSpecifier {
        pass.Report(FormatSpecifierUsed(fName, specifier));
        found := true;
      }
    }
  }

  /** A call named like `Infof` never draws a format specifier diagnostic. */
  lemma FormattedNameNeverFlagged(call: Call)
    requires call.fun.SelectorExpr? && HasSuffix(call.fun.sel, "f")
    ensures FormatSpecifierFinding(call).None?
  {
  }

  /** Apart from the "f" exemption, `checkFormatSpecifier` and
      `checkForFormatSpecifier` agree. */
  lemma FindingMatchesCheck(call: Call)
    requires call.fun.SelectorExpr? && !HasSuffix(call.fun.sel, "f")
    ensures FormatSpecifierFinding(call).Some? <==> CheckFormatSpecifier(call)
  {
  }

  /** `checkFormatSpecifier` holds exactly for selector calls with some
      literal argument that contains a listed specifier. */
  lemma CheckFormatSpecifierMeaning(call: Call)
    ensures CheckFormatSpecifier(call) <==>
              call.fun.SelectorExpr? && exists i, k | 0 <= i < |call.args| && 0 <= k < |Specifiers| ::
                call.args[i].BasicLit? && Contains(call.args[i].value, Specifiers[k])
  {
    if call.fun.SelectorExpr? && !CheckFormatSpecifier(call) {
      forall i, k | 0 <= i < |call.args| && 0 <= k < |Specifiers|
        ensures !(call.args[i].BasicLit? && Contains(call.args[i].value, Specifiers[k]))
      {
        assert SpecifierOf(call.args[i]).None?;
      }
    }
  }

  /** A literal argument that contains a listed specifier is always noticed,
      whatever arguments come before or after it. */
  lemma {:induction false} LiteralWithSpecifierFound(args: seq<Expr>, i: nat, k: nat)
    requires i < |args| && k < |Specifiers|
    requires args[i].BasicLit? && Contains(args[i].value, Specifiers[k])
    ensures HasFormatSpecifier(args).1
  {
    match FirstContained(args[i].value, Specifiers)
    case None =>
      assert false;
    case Some(_) =>
      assert SpecifierOf(args[i]).Some?;
  }
}
