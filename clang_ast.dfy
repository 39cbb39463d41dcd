/** The fragment of clang's AST and Rewriter that the masking passes look at,
    as values. Declarations and source positions are identified by numbers;
    a rewriter is represented by the ordered list of edits made through it. */
module ClangAst {

  /** A variable declaration (parameter or local): clang identifies it by
      address, the model by `id`. */
  datatype VarDecl = VarDecl(id: nat, name: string)

  /** What a `DeclRefExpr` refers to: a variable, or some other declaration
      (a function, an enumerator) that `dyn_cast<VarDecl>` turns into null. */
  datatype Decl = VarRef(v: VarDecl) | OtherDecl(id: nat)

  /** A half-open character range of the main file. */
  datatype SourceRange = SourceRange(begin: nat, end: nat)

  /** Expressions, as far as the masking passes distinguish them. */
  datatype Expr =
    | DeclRefExpr(decl: Decl, range: SourceRange)
    | ParenExpr(sub: Expr, range: SourceRange)
    | ImplicitCastExpr(sub: Expr, range: SourceRange)
    | OtherExpr(range: SourceRange)

  /** clang's `BinaryOperatorKind`, one constructor per `BO_` value. */
  datatype Opcode =
    | PtrMemD | PtrMemI | Mul | Div | Rem | Add | Sub | Shl | Shr | Cmp
    | LT | GT | LE | GE | EQ | NE | And | Xor | Or | LAnd | LOr
    | Assign | MulAssign | DivAssign | RemAssign | AddAssign | SubAssign
    | ShlAssign | ShrAssign | AndAssign | XorAssign | OrAssign | Comma

  /** `BinaryOperator::isAdditiveOp`: exactly `+` and `-` (not `+=`). */
  predicate IsAdditiveOp(opc: Opcode)
  {
    opc == Add || opc == Sub
  }

  /** A binary operator node: its two operands, the location of the operator
      token (`getExprLoc`) and the range of the whole expression. */
  datatype BinaryOperator =
    BinaryOperator(opcode: Opcode, lhs: Expr, rhs: Expr, exprLoc: nat, range: SourceRange)

  /** A function declaration with its name, whether it has a body, and the
      variable declarations (parameters, then locals) a recursive traversal of
      it visits, in traversal order. */
  datatype FunctionDecl = FunctionDecl(name: string, hasBody: bool, varDecls: seq<VarDecl>)

  /** One call on the Rewriter. */
  datatype Edit =
    | InsertTextBefore(loc: nat, text: string)
    | ReplaceText(range: SourceRange, text: string)

  /** `Expr::IgnoreParenImpCasts`: strips parentheses and implicit casts, as
      many as are stacked, and nothing else. */
  function IgnoreParenImpCasts(e: Expr): (r: Expr)
    ensures !r.ParenExpr? && !r.ImplicitCastExpr?
    ensures !e.ParenExpr? && !e.ImplicitCastExpr? ==> r == e
    ensures r < e || r == e
  {
    match e
    case ParenExpr(sub, _) => IgnoreParenImpCasts(sub)
    case ImplicitCastExpr(sub, _) => IgnoreParenImpCasts(sub)
    case _ => e
  }
}
