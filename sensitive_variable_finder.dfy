/** The name-based taint collector: while a function declaration is traversed,
    every variable declaration whose name looks like a key is recorded as
    sensitive. Nothing else (types, parameter positions, the configured argument
    classes) is consulted. */
module Sensitivity {
  import opened Strings
  import opened ClangAst

  /** The name test: the name contains "key" (case-sensitive) or is exactly "k". */
  predicate IsKeyName(name: string)
  {
    Contains(name, "key") || name == "k"
  }

  /** The declarations among `ds` that pass the name test. */
  function KeyDecls(ds: seq<VarDecl>): (r: set<VarDecl>)
    ensures forall d :: d in r <==> d in ds && IsKeyName(d.name)
  {
    if ds == [] then {}
    else
      var last := ds[|ds| - 1];
      assert ds == ds[..|ds| - 1] + [last];
      KeyDecls(ds[..|ds| - 1]) + (if IsKeyName(last.name) then {last} else {})
  }

  /** `isSensitive(E)`, shared by the collector and the masking visitor: `E` is a
      reference to a variable in `vars`. Any other expression, and a reference to
      a declaration that is not a variable, is not sensitive. */
  function IsSensitiveIn(vars: set<VarDecl>, e: Expr): (r: bool)
    ensures r <==> e.DeclRefExpr? && e.decl.VarRef? && e.decl.v in vars
  {
    match e
    case DeclRefExpr(VarRef(v), _) => v in vars
    case _ => false
  }

  /** Two declarations with the same name are classified alike, whatever their
      identity. */
  lemma ClassificationByNameOnly(ds: seq<VarDecl>, d1: VarDecl, d2: VarDecl)
    requires d1 in ds && d2 in ds && d1.name == d2.name
    ensures d1 in KeyDecls(ds) <==> d2 in KeyDecls(ds)
  {
  }

  class SensitiveVariableFinder {
    /** The declarations found so far; it only ever grows. */
    var sensitiveVars: set<VarDecl>

    constructor()
      ensures sensitiveVars == {}
    {
      sensitiveVars := {};
    }

    /** Records `d` when its name passes the test; always lets the traversal go on. */
    method VisitVarDecl(d: VarDecl) returns (cont: bool)
      modifies this
      ensures cont
      ensures sensitiveVars == if IsKeyName(d.name) then old(sensitiveVars) + {d} else old(sensitiveVars)
    {
      var varName := d.name;
      if Contains(varName, "key") || varName == "k" {
        sensitiveVars := sensitiveVars + {d};
      }
      return true;
    }

    /** The traversal of a function declaration: `VisitVarDecl` on every variable
        declaration in it, in order. What was found before stays. */
    method TraverseDecl(f: FunctionDecl) returns (cont: bool)
      modifies this
      ensures cont
      ensures sensitiveVars == old(sensitiveVars) + KeyDecls(f.varDecls)
    {
      cont := true;
      for i := 0 to |f.varDecls|
        invariant cont
        invariant sensitiveVars == old(sensitiveVars) + KeyDecls(f.varDecls[..i])
      {
        assert f.varDecls[..i + 1][..i] == f.varDecls[..i];
        cont := VisitVarDecl(f.varDecls[i]);
      }
      assert f.varDecls[..|f.varDecls|] == f.varDecls;
    }

    /** `isSensitive(E)` against the declarations found so far. */
    function IsSensitive(e: Expr): (r: bool)
      reads this
      ensures r <==> e.DeclRefExpr? && e.decl.VarRef? && e.decl.v in sensitiveVars
    {
      IsSensitiveIn(sensitiveVars, e)
    }

    /** `getSensitiveVars()`: a copy of the set; reading it changes nothing. */
    function GetSensitiveVars(): (vs: set<VarDecl>)
      reads this
      ensures vs == sensitiveVars
    {
      sensitiveVars
    }
  }
}
