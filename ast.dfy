/** The slice of Go's syntax trees (`go/ast`) and type information
    (`go/types`, as `pass.TypesInfo`) that the logcheck rules look at. */
module GoAst {

  datatype Option<+T> = None | Some(value: T)

  /** The kinds an identifier's resolved object can have; `Con` (a constant)
      is the one `ast.ObjKind` value 2 stands for. */
  datatype ObjKind = Bad | Pkg | Con | Typ | Var | Fun | Lbl

  /** The declaration an object points to. Only a value specification
      (`const zero = 0`) is ever inspected. */
  datatype Decl = ValueSpec(values: seq<Expr>) | OtherDecl

  datatype Object = Object(kind: ObjKind, decl: Decl)

  /** Token kinds of a basic literal. */
  datatype LitKind = IntLit | FloatLit | ImagLit | CharLit | StringLit

  /** An expression. `obj` is `None` where the parser could not resolve the
      identifier inside the file (for instance a constant of another file);
      `value` of a literal is its source text, quotes included. */
  datatype Expr =
    | Ident(name: string, obj: Option<Object>)
    | BasicLit(kind: LitKind, value: string)
    | SelectorExpr(x: Expr, sel: string)
    | CallExpr(fun: Expr, args: seq<Expr>)
    | OtherExpr(text: string)

  /** A call expression, the node `checkForFunctionExpr` is handed. */
  type Call = e: Expr | e.CallExpr? witness CallExpr(OtherExpr([]), [])

  /** A named type, identified by its package path and its name. */
  datatype TypeName = TypeName(pkgPath: string, name: string)

  /** What the type checker recorded for the package: `namedTypes` holds the
      expressions whose type is a named type (`TypesInfo.Types`, restricted
      to named types), `packageNames` the identifiers that refer to an
      imported package, with its path (`TypesInfo.Uses`, restricted to
      package names). Both are results of type checking the whole package
      and are taken as given. */
  datatype TypesInfo = TypesInfo(namedTypes: map<Expr, TypeName>, packageNames: map<Expr, string>)

  const KlogPath := "k8s.io/klog/v2"
  const LogrPath := "github.com/go-logr/logr"

  /** The expression has type `klog.Verbose`, the result of `klog.V`. */
  predicate IsKlogVerbose(info: TypesInfo, e: Expr)
  {
    e in info.namedTypes && info.namedTypes[e] == TypeName(KlogPath, "Verbose")
  }

  /** The expression has type `logr.Logger`. */
  predicate IsGoLogger(info: TypesInfo, e: Expr)
  {
    e in info.namedTypes && info.namedTypes[e] == TypeName(LogrPath, "Logger")
  }

  /** The expression has type `context.Context`. */
  predicate IsContext(info: TypesInfo, e: Expr)
  {
    e in info.namedTypes && info.namedTypes[e] == TypeName("context", "Context")
  }

  /** The expression is an identifier naming the package with the given path. */
  predicate IsPackage(info: TypesInfo, e: Expr, path: string)
  {
    e.Ident? && e in info.packageNames && info.packageNames[e] == path
  }

  /** The expression is a `klog.Verbose` value or the klog package itself. */
  predicate IsKlog(info: TypesInfo, e: Expr)
  {
    IsKlogVerbose(info, e) || IsPackage(info, e, KlogPath)
  }
}
