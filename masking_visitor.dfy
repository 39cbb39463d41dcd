/** The masking visitor: it watches function declarations for the configured
    crypto function, collects the names that look like keys, and rewrites every
    binary operator with a sensitive operand, linear ones (`+`, `-`, `^`) by
    inserting a fresh random bit and xor-ing it into the sensitive operands, the
    others by the block the gadget synthesizer returns.

    The visitor's state is summed up by `VisitorState`; the effect of each visit
    is the pure function `Step`, and each method of the class is proved to move
    the class from one state to the next as `Step` says. What the source promises
    is proved about `Step` and about `Run`, any sequence of visits. */
module Masking {
  import opened Strings
  import opened ClangAst
  import opened Sensitivity
  import opened SmtMasker

  /** The name of the n-th random variable: "r" followed by n in decimal. */
  function RandomVarName(n: nat): string
  {
    "r" + NatToString(n)
  }

  /** The declaration inserted in front of a linear operator. */
  function RandomVarDecl(name: string): string
  {
    "bool " + name + " = get_random();\n"
  }

  /** Different counter values give different declarations. */
  lemma RandomVarDeclInjective(a: nat, b: nat)
    requires RandomVarDecl(RandomVarName(a)) == RandomVarDecl(RandomVarName(b))
    ensures a == b
  {
    var da, db := RandomVarDecl(RandomVarName(a)), RandomVarDecl(RandomVarName(b));
    var na, nb := NatToString(a), NatToString(b);
    assert |na| == |nb| by {
      assert |da| == 6 + |na| + 17 && |db| == 6 + |nb| + 17;
    }
    assert da[6..6 + |na|] == na;
    assert db[6..6 + |nb|] == nb;
    NatToStringInjective(a, b);
  }

  /** What the visitor knows besides its state: the name of the crypto function,
      the solver, and the rewriter's rendering of a range once the given edits
      have been made (`Rewriter::getRewrittenText`). */
  datatype Environment = Environment(
    cryptoFuncName: string,
    solver: string -> string,
    rewrittenText: (seq<Edit>, SourceRange) -> string)

  /** The visitor's fields, its rewriter's edits so far, and the set its variable
      finder has collected. */
  datatype VisitorState = VisitorState(
    inCryptoFunction: bool,
    sensitiveVars: set<VarDecl>,
    randomVarCounter: nat,
    edits: seq<Edit>,
    finderVars: set<VarDecl>)

  /** The state of a freshly constructed visitor. */
  function InitialState(): VisitorState
  {
    VisitorState(false, {}, 0, [], {})
  }

  /** `VisitFunctionDecl`: a declaration of the crypto function switches masking
      on; when it has a body, its variables are run through the finder and the
      visitor takes over everything the finder has collected. */
  function FunctionDeclStep(env: Environment, s: VisitorState, f: FunctionDecl): (r: VisitorState)
    ensures r.randomVarCounter == s.randomVarCounter && r.edits == s.edits
    ensures r.inCryptoFunction <==> s.inCryptoFunction || f.name == env.cryptoFuncName
    ensures s.finderVars <= r.finderVars
  {
    if f.name == env.cryptoFuncName then
      if f.hasBody then
        var found := s.finderVars + KeyDecls(f.varDecls);
        s.(inCryptoFunction := true, finderVars := found, sensitiveVars := found)
      else
        s.(inCryptoFunction := true)
    else s
  }

  /** `maskLinearOperation`: one fresh random variable, declared in front of the
      operator; each operand that is itself a reference to a sensitive variable
      (parentheses and casts count against it) is replaced by its rewritten text
      xor-ed with that variable. Both texts are read after the insertion and
      before either replacement. */
  function LinearStep(env: Environment, s: VisitorState, op: BinaryOperator): (r: VisitorState)
    ensures r.randomVarCounter == s.randomVarCounter + 1
    ensures |s.edits| < |r.edits| <= |s.edits| + 3 && s.edits <= r.edits
    ensures r.edits[|s.edits|] == InsertTextBefore(op.exprLoc, RandomVarDecl(RandomVarName(s.randomVarCounter)))
    ensures r.inCryptoFunction == s.inCryptoFunction && r.sensitiveVars == s.sensitiveVars
    ensures r.finderVars == s.finderVars
  {
    var name := RandomVarName(s.randomVarCounter);
    var inserted := s.edits + [InsertTextBefore(op.exprLoc, RandomVarDecl(name))];
    var lhsCode := env.rewrittenText(inserted, op.lhs.range);
    var rhsCode := env.rewrittenText(inserted, op.rhs.range);
    var lhsWrap := if IsSensitiveIn(s.sensitiveVars, op.lhs)
                   then [ReplaceText(op.lhs.range, "(" + lhsCode + " ^ " + name + ")")] else [];
    var rhsWrap := if IsSensitiveIn(s.sensitiveVars, op.rhs)
                   then [ReplaceText(op.rhs.range, "(" + rhsCode + " ^ " + name + ")")] else [];
    s.(randomVarCounter := s.randomVarCounter + 1, edits := inserted + lhsWrap + rhsWrap)
  }

  /** The nonlinear path: the whole operator is replaced by the synthesizer's
      block, and the counter moves on by two. */
  function NonlinearStep(env: Environment, s: VisitorState, op: BinaryOperator): (r: VisitorState)
    ensures r.randomVarCounter == s.randomVarCounter + 2
    ensures |r.edits| == |s.edits| + 1 && s.edits <= r.edits
    ensures r.edits[|s.edits|].ReplaceText? && r.edits[|s.edits|].range == op.range
    ensures r.inCryptoFunction == s.inCryptoFunction && r.sensitiveVars == s.sensitiveVars
    ensures r.finderVars == s.finderVars
  {
    s.(randomVarCounter := s.randomVarCounter + 2,
       edits := s.edits + [ReplaceText(op.range, SynthesizedCode(env.solver, op))])
  }

  /** Masking applies: the visitor is in (or past) the crypto function and one
      of the operands, with parentheses and implicit casts stripped, is sensitive. */
  predicate Applies(s: VisitorState, op: BinaryOperator)
  {
    s.inCryptoFunction &&
    (IsSensitiveIn(s.sensitiveVars, IgnoreParenImpCasts(op.lhs)) ||
     IsSensitiveIn(s.sensitiveVars, IgnoreParenImpCasts(op.rhs)))
  }

  /** The opcodes masked by the linear path. */
  predicate IsLinear(opc: Opcode)
  {
    IsAdditiveOp(opc) || opc == Xor
  }

  /** `VisitBinaryOperator`. */
  function BinaryOperatorStep(env: Environment, s: VisitorState, op: BinaryOperator): (r: VisitorState)
    ensures !Applies(s, op) ==> r == s
    ensures Applies(s, op) ==> r.randomVarCounter == s.randomVarCounter + (if IsLinear(op.opcode) then 1 else 2)
  {
    if !Applies(s, op) then s
    else if IsLinear(op.opcode) then LinearStep(env, s, op)
    else NonlinearStep(env, s, op)
  }

  /** The visits a traversal makes, in the order it makes them. */
  datatype Visit = FunctionDeclVisit(f: FunctionDecl) | BinaryOperatorVisit(op: BinaryOperator)

  function Step(env: Environment, s: VisitorState, v: Visit): VisitorState
  {
    match v
    case FunctionDeclVisit(f) => FunctionDeclStep(env, s, f)
    case BinaryOperatorVisit(op) => BinaryOperatorStep(env, s, op)
  }

  /** The state after a sequence of visits. */
  function Run(env: Environment, s: VisitorState, vs: seq<Visit>): VisitorState
  {
    if vs == [] then s else Step(env, Run(env, s, vs[..|vs| - 1]), vs[|vs| - 1])
  }

  // ---------------------------------------------------------------------
  // Properties of one visit
  // ---------------------------------------------------------------------

  /** A binary operator leaves everything as it was exactly when masking does not
      apply: outside the crypto function, or with no sensitive operand. */
  lemma BinaryOperatorUnchangedIff(env: Environment, s: VisitorState, op: BinaryOperator)
    ensures BinaryOperatorStep(env, s, op) == s <==> !Applies(s, op)
  {
    var r := BinaryOperatorStep(env, s, op);
    if Applies(s, op) {
      assert r.randomVarCounter > s.randomVarCounter;
    }
  }

  /** A binary operator never changes whether masking is on nor what is sensitive;
      the counter never goes down and the edits are only appended to. */
  lemma BinaryOperatorKeepsTaint(env: Environment, s: VisitorState, op: BinaryOperator)
    ensures var r := BinaryOperatorStep(env, s, op);
            r.inCryptoFunction == s.inCryptoFunction && r.sensitiveVars == s.sensitiveVars &&
            r.finderVars == s.finderVars && r.randomVarCounter >= s.randomVarCounter &&
            s.edits <= r.edits
  {
  }

  /** The linear path: the counter goes up by one, exactly one insertion is made,
      in front of the operator, declaring the variable named after the old
      counter, and it is followed by at most two replacements, one per operand
      that is itself a sensitive reference. */
  lemma LinearPath(env: Environment, s: VisitorState, op: BinaryOperator)
    requires Applies(s, op) && IsLinear(op.opcode)
    ensures var r := BinaryOperatorStep(env, s, op);
            var added := r.edits[|s.edits|..];
            r.randomVarCounter == s.randomVarCounter + 1 &&
            s.edits <= r.edits && |added| >= 1 &&
            added[0] == InsertTextBefore(op.exprLoc, RandomVarDecl(RandomVarName(s.randomVarCounter))) &&
            |added| == 1 + (if IsSensitiveIn(s.sensitiveVars, op.lhs) then 1 else 0)
                         + (if IsSensitiveIn(s.sensitiveVars, op.rhs) then 1 else 0) &&
            (forall j :: 1 <= j < |added| ==> added[j].ReplaceText?)
  {
    var r := BinaryOperatorStep(env, s, op);
    assert r == LinearStep(env, s, op);
  }

  /** The wrapping uses the same variable for both operands: a replaced operand
      reads `(` + its rewritten text + ` ^ r<n>)` with n the old counter. */
  lemma LinearWrapsShareName(env: Environment, s: VisitorState, op: BinaryOperator)
    requires Applies(s, op) && IsLinear(op.opcode)
    requires IsSensitiveIn(s.sensitiveVars, op.lhs) && IsSensitiveIn(s.sensitiveVars, op.rhs)
    ensures var r := BinaryOperatorStep(env, s, op);
            var n := |s.edits|;
            var name := RandomVarName(s.randomVarCounter);
            |r.edits| == n + 3 &&
            r.edits[n + 1] == ReplaceText(op.lhs.range, "(" + env.rewrittenText(r.edits[..n + 1], op.lhs.range) + " ^ " + name + ")") &&
            r.edits[n + 2] == ReplaceText(op.rhs.range, "(" + env.rewrittenText(r.edits[..n + 1], op.rhs.range) + " ^ " + name + ")")
  {
    var r := BinaryOperatorStep(env, s, op);
    var n := |s.edits|;
    assert r == LinearStep(env, s, op);
    assert r.edits[..n + 1] == s.edits + [InsertTextBefore(op.exprLoc, RandomVarDecl(RandomVarName(s.randomVarCounter)))];
  }

  /** An operand written in parentheses or behind an implicit cast is not wrapped,
      even when the reference inside is what made the operator sensitive: then
      only the declaration is inserted. */
  lemma LinearLeavesWrappedOperands(env: Environment, s: VisitorState, op: BinaryOperator)
    requires Applies(s, op) && IsLinear(op.opcode)
    requires !op.lhs.DeclRefExpr? && !op.rhs.DeclRefExpr?
    ensures BinaryOperatorStep(env, s, op).edits ==
            s.edits + [InsertTextBefore(op.exprLoc, RandomVarDecl(RandomVarName(s.randomVarCounter)))]
  {
    assert BinaryOperatorStep(env, s, op) == LinearStep(env, s, op);
  }

  /** The nonlinear path (every opcode other than `+`, `-`, `^`: `&`, `|`, `<<`,
      comparisons, assignments, ...): the counter goes up by two and one
      replacement of the whole operator by the synthesizer's block is recorded. */
  lemma NonlinearPath(env: Environment, s: VisitorState, op: BinaryOperator)
    requires Applies(s, op) && !IsLinear(op.opcode)
    ensures var r := BinaryOperatorStep(env, s, op);
            r.randomVarCounter == s.randomVarCounter + 2 &&
            r.edits == s.edits + [ReplaceText(op.range, SynthesizedCode(env.solver, op))]
  {
  }

  /** When the solver cannot be started its reply is "ERROR", and the operator is
      replaced by the block with `^` in both slots. */
  lemma NonlinearWithFailedSolver(env: Environment, s: VisitorState, op: BinaryOperator)
    requires Applies(s, op) && !IsLinear(op.opcode)
    requires env.solver(SmtProgramText(op)) == "ERROR"
    ensures BinaryOperatorStep(env, s, op).edits == s.edits + [ReplaceText(op.range, GadgetCode("^", "^"))]
  {
    ErrorReplyChoosesXor();
  }

  /** `VisitFunctionDecl` only turns masking on, never off; the sensitive set is
      replaced only by a declaration of the crypto function that has a body, and
      then by everything the finder has collected; nothing is rewritten. */
  lemma FunctionDeclEffect(env: Environment, s: VisitorState, f: FunctionDecl)
    ensures var r := FunctionDeclStep(env, s, f);
            r.inCryptoFunction == (s.inCryptoFunction || f.name == env.cryptoFuncName) &&
            (r.sensitiveVars != s.sensitiveVars ==> f.name == env.cryptoFuncName && f.hasBody) &&
            (f.name == env.cryptoFuncName && f.hasBody ==>
               r.sensitiveVars == s.finderVars + KeyDecls(f.varDecls) && r.finderVars == r.sensitiveVars) &&
            r.randomVarCounter == s.randomVarCounter && r.edits == s.edits
  {
  }

  // ---------------------------------------------------------------------
  // Properties of a whole traversal
  // ---------------------------------------------------------------------

  /** Every insertion declares `r<n>` for some n below `bound`. */
  ghost predicate InsertsNumberedBelow(edits: seq<Edit>, bound: nat)
  {
    forall i :: 0 <= i < |edits| && edits[i].InsertTextBefore? ==>
      exists n: nat :: n < bound && edits[i].text == RandomVarDecl(RandomVarName(n))
  }

  /** No two insertions declare the same text. */
  predicate InsertTextsDistinct(edits: seq<Edit>)
  {
    forall i, j :: 0 <= i < j < |edits| && edits[i].InsertTextBefore? && edits[j].InsertTextBefore? ==>
      edits[i].text != edits[j].text
  }

  ghost predicate Numbered(s: VisitorState)
  {
    InsertsNumberedBelow(s.edits, s.randomVarCounter) && InsertTextsDistinct(s.edits)
  }

  lemma NumberingRaised(edits: seq<Edit>, bound: nat, bound': nat)
    requires InsertsNumberedBelow(edits, bound) && bound <= bound'
    ensures InsertsNumberedBelow(edits, bound')
  {
    forall i | 0 <= i < |edits| && edits[i].InsertTextBefore?
      ensures exists n: nat :: n < bound' && edits[i].text == RandomVarDecl(RandomVarName(n))
    {
      var n: nat :| n < bound && edits[i].text == RandomVarDecl(RandomVarName(n));
    }
  }

  /** Appending replacements adds no insertion. */
  lemma ReplacementsKeepNumbering(edits: seq<Edit>, more: seq<Edit>, bound: nat)
    requires InsertsNumberedBelow(edits, bound) && InsertTextsDistinct(edits)
    requires forall j :: 0 <= j < |more| ==> more[j].ReplaceText?
    ensures InsertsNumberedBelow(edits + more, bound) && InsertTextsDistinct(edits + more)
  {
    var e := edits + more;
    forall i | |edits| <= i < |e|
      ensures e[i].ReplaceText?
    {
      assert e[i] == more[i - |edits|];
    }
  }

  lemma LinearStepKeepsNumbering(env: Environment, s: VisitorState, op: BinaryOperator)
    requires Numbered(s)
    ensures Numbered(LinearStep(env, s, op))
  {
    var c := s.randomVarCounter;
    var n := |s.edits|;
    var ins := InsertTextBefore(op.exprLoc, RandomVarDecl(RandomVarName(c)));
    var inserted := s.edits + [ins];
    var r := LinearStep(env, s, op);
    NumberingRaised(s.edits, c, c + 1);
    forall i | 0 <= i < |inserted| && inserted[i].InsertTextBefore?
      ensures exists m: nat :: m < c + 1 && inserted[i].text == RandomVarDecl(RandomVarName(m))
    {
      if i == n {
        assert inserted[i].text == RandomVarDecl(RandomVarName(c));
      } else {
        assert inserted[i] == s.edits[i];
      }
    }
    forall i, j | 0 <= i < j < |inserted| && inserted[i].InsertTextBefore? && inserted[j].InsertTextBefore?
      ensures inserted[i].text != inserted[j].text
    {
      assert inserted[i] == s.edits[i];
      if j == n {
        var m: nat :| m < c && s.edits[i].text == RandomVarDecl(RandomVarName(m));
        if inserted[i].text == inserted[j].text {
          RandomVarDeclInjective(m, c);
        }
      } else {
        assert inserted[j] == s.edits[j];
      }
    }
    var wraps := r.edits[|inserted|..];
    assert r.edits == inserted + wraps;
    ReplacementsKeepNumbering(inserted, wraps, c + 1);
  }

  lemma StepKeepsNumbering(env: Environment, s: VisitorState, v: Visit)
    requires Numbered(s)
    ensures Numbered(Step(env, s, v))
    ensures Step(env, s, v).randomVarCounter >= s.randomVarCounter
    ensures s.inCryptoFunction ==> Step(env, s, v).inCryptoFunction
  {
    match v
    case FunctionDeclVisit(f) =>
    case BinaryOperatorVisit(op) =>
      if Applies(s, op) {
        if IsLinear(op.opcode) {
          LinearStepKeepsNumbering(env, s, op);
        } else {
          var r := NonlinearStep(env, s, op);
          NumberingRaised(s.edits, s.randomVarCounter, r.randomVarCounter);
          ReplacementsKeepNumbering(s.edits, r.edits[|s.edits|..], r.randomVarCounter);
          assert r.edits == s.edits + r.edits[|s.edits|..];
        }
      }
  }

  /** Along any sequence of visits the counter never goes down, masking once on
      stays on, and the numbering of the inserted declarations is kept. */
  lemma {:induction false} RunKeepsNumbering(env: Environment, s: VisitorState, vs: seq<Visit>)
    requires Numbered(s)
    ensures Numbered(Run(env, s, vs))
    ensures Run(env, s, vs).randomVarCounter >= s.randomVarCounter
    ensures s.inCryptoFunction ==> Run(env, s, vs).inCryptoFunction
  {
    if vs != [] {
      RunKeepsNumbering(env, s, vs[..|vs| - 1]);
      StepKeepsNumbering(env, Run(env, s, vs[..|vs| - 1]), vs[|vs| - 1]);
    }
  }

  /** Starting from a fresh visitor, the random variables declared by the linear
      path are pairwise distinct, whatever the program visited. */
  lemma RandomVarDeclsDistinct(env: Environment, vs: seq<Visit>)
    ensures InsertTextsDistinct(Run(env, InitialState(), vs).edits)
  {
    RunKeepsNumbering(env, InitialState(), vs);
  }

  /** The synthesizer's block always declares `r1` and `r2` itself, whatever the
      counter: the two numbers the nonlinear path reserves are not the names the
      block uses, so a block and a linear declaration made at counter 1 declare
      the same variable. */
  lemma NonlinearBlockDeclaresR1(reply: string)
    ensures OccursAt(ParsedCode(reply), RandomVarDecl(RandomVarName(1)), 4)
  {
    var d := RandomVarDecl(RandomVarName(1));
    DeclOfR1();
    CodeHeadDeclaresR1();
    var code := ParsedCode(reply);
    assert code[..|CodeHead|] == CodeHead;
    assert code[4..4 + |d|] == CodeHead[4..4 + |d|];
  }

  lemma DeclOfR1()
    ensures RandomVarDecl(RandomVarName(1)) == "bool r1 = get_random();\n"
  {
    assert NatToString(1) == "1";
  }

  lemma CodeHeadDeclaresR1()
    ensures |CodeHead| >= 28 && CodeHead[4..28] == "bool r1 = get_random();\n"
  {
    var d := "bool r1 = get_random();\n";
    var rest := "  bool r2 = get_random();\n" + "  bool masked_i1 = i1 ^ r1;\n" +
                "  bool masked_i2 = i2 ^ r2;\n" + "  bool fp = (masked_i1  ";
    assert CodeHead == "{\n  " + d + rest;
    assert ("{\n  " + d + rest)[4..28] == d;
  }

  // ---------------------------------------------------------------------
  // The visitor
  // ---------------------------------------------------------------------

  class MaskingASTVisitor {
    /** The configured crypto function's name. */
    const cryptoFuncName: string
    /** The solver process, as the reply it gives to a program text. */
    const solver: string -> string
    /** The rewriter's rendering of a range after the given edits. */
    const rewrittenText: (seq<Edit>, SourceRange) -> string
    const varFinder: SensitiveVariableFinder

    var inCryptoFunction: bool
    var sensitiveVars: set<VarDecl>
    var randomVarCounter: nat
    /** The edits made through the rewriter, in order. */
    var edits: seq<Edit>

    function Env(): Environment
    {
      Environment(cryptoFuncName, solver, rewrittenText)
    }

    function Snapshot(): VisitorState
      reads this, varFinder
    {
      VisitorState(inCryptoFunction, sensitiveVars, randomVarCounter, edits, varFinder.sensitiveVars)
    }

    /** The counter starts at 0, masking is off and nothing is sensitive. */
    constructor(cryptoFuncName: string, solver: string -> string,
                rewrittenText: (seq<Edit>, SourceRange) -> string)
      ensures Env() == Environment(cryptoFuncName, solver, rewrittenText)
      ensures Snapshot() == InitialState()
      ensures fresh(varFinder)
    {
      this.cryptoFuncName := cryptoFuncName;
      this.solver := solver;
      this.rewrittenText := rewrittenText;
      varFinder := new SensitiveVariableFinder();
      inCryptoFunction := false;
      sensitiveVars := {};
      randomVarCounter := 0;
      edits := [];
    }

    method VisitFunctionDecl(f: FunctionDecl) returns (cont: bool)
      modifies this, varFinder
      ensures cont
      ensures Snapshot() == FunctionDeclStep(Env(), old(Snapshot()), f)
    {
      if f.name == cryptoFuncName {
        inCryptoFunction := true;
        if f.hasBody {
          var _ := varFinder.TraverseDecl(f);
          sensitiveVars := varFinder.GetSensitiveVars();
        }
      }
      return true;
    }

    method VisitBinaryOperator(op: BinaryOperator) returns (cont: bool)
      modifies this
      ensures cont
      ensures Snapshot() == BinaryOperatorStep(Env(), old(Snapshot()), op)
    {
      ghost var s := Snapshot();
      if !inCryptoFunction {
        return true;
      }
      var lhs := IgnoreParenImpCasts(op.lhs);
      var rhs := IgnoreParenImpCasts(op.rhs);
      var lhsIsSensitive := IsSensitive(lhs);
      var rhsIsSensitive := IsSensitive(rhs);
      if lhsIsSensitive || rhsIsSensitive {
        assert Applies(s, op);
        if IsAdditiveOp(op.opcode) || op.opcode == Xor {
          MaskLinearOperation(op);
        } else {
          assert BinaryOperatorStep(Env(), s, op) == NonlinearStep(Env(), s, op);
          var maskedCode, counter := MaskNonlinearOperation(op, solver, randomVarCounter);
          randomVarCounter := counter;
          edits := edits + [ReplaceText(op.range, maskedCode)];
          assert Snapshot() == NonlinearStep(Env(), s, op);
        }
      }
      return true;
    }

    /** `isSensitive(E)`: a reference to one of the sensitive variables. */
    function IsSensitive(e: Expr): (r: bool)
      reads this
      ensures r <==> e.DeclRefExpr? && e.decl.VarRef? && e.decl.v in sensitiveVars
    {
      IsSensitiveIn(sensitiveVars, e)
    }

    method MaskLinearOperation(op: BinaryOperator)
      modifies this
      ensures Snapshot() == LinearStep(Env(), old(Snapshot()), op)
    {
      var name := "r" + NatToString(randomVarCounter);
      randomVarCounter := randomVarCounter + 1;
      var decl := "bool " + name + " = get_random();\n";
      edits := edits + [InsertTextBefore(op.exprLoc, decl)];
      var lhsCode := rewrittenText(edits, op.lhs.range);
      var rhsCode := rewrittenText(edits, op.rhs.range);
      if IsSensitive(op.lhs) {
        edits := edits + [ReplaceText(op.lhs.range, "(" + lhsCode + " ^ " + name + ")")];
      }
      if IsSensitive(op.rhs) {
        edits := edits + [ReplaceText(op.rhs.range, "(" + rhsCode + " ^ " + name + ")")];
      }
    }
  }
}
