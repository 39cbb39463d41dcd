/** The gadget synthesizer for nonlinear operators. It writes an SMT-LIB program
    asking for two operators `fp`, `fpp` from {and, or, xor} such that
    fp(x1, x2) ^ fpp(x1, x2) == i1 && i2 on the masked bits x1 = i1 ^ r1,
    x2 = i2 ^ r2. It hands the program to a solver and reads the operator choice
    back out of the reply by a line scan. Then it fills that choice into a fixed
    block of C code. The solver is an oracle `string -> string`: whatever it
    answers, including the text "ERROR" when it cannot be started, is the reply. */
module SmtMasker {
  import opened Strings
  import opened ClangAst

  // ---------------------------------------------------------------------
  // The constraint program
  // ---------------------------------------------------------------------

  /** What the generator writes before the case blocks, piece by piece: logic,
      unknowns, masked inputs, the two exactly-one-of-three selector groups and
      the definitions of fp, fpp and out. */
  const HeaderPieces: seq<string> := [
    "(set-logic QF_BV)\n",
    "(set-option :produce-models true)\n",
    "(declare-fun i1 () Bool)\n",
    "(declare-fun i2 () Bool)\n",
    "(declare-fun r1 () Bool)\n",
    "(declare-fun r2 () Bool)\n",
    "(define-fun x1 () Bool (xor i1 r1))\n",
    "(define-fun x2 () Bool (xor i2 r2))\n",
    "(declare-fun op_fp_and () Bool)\n",
    "(declare-fun op_fp_or () Bool)\n",
    "(declare-fun op_fp_xor () Bool)\n",
    "(assert (= 1 (+ (ite op_fp_and 1 0) (ite op_fp_or 1 0) (ite op_fp_xor 1 0))))\n",
    "(declare-fun op_fpp_and () Bool)\n",
    "(declare-fun op_fpp_or () Bool)\n",
    "(declare-fun op_fpp_xor () Bool)\n",
    "(assert (= 1 (+ (ite op_fpp_and 1 0) (ite op_fpp_or 1 0) (ite op_fpp_xor 1 0))))\n",
    "(define-fun fp () Bool (ite op_fp_and (and x1 x2) (ite op_fp_or (or x1 x2) (xor x1 x2))))\n",
    "(define-fun fpp() Bool (ite op_fpp_and (and x1 x2) (ite op_fpp_or (or x1 x2) (xor x1 x2))))\n",
    "(define-fun out() Bool (xor fp fpp))\n"
  ]

  const Epilogue: string := "(check-sat)\n(get-model)\n"

  /** One assignment of the four bits the generator enumerates. */
  datatype Case = Case(i1: bool, i2: bool, r1: bool, r2: bool)

  /** The k-th case of the enumeration: false before true, i1 outermost and r2
      innermost, so k reads as the binary number i1 i2 r1 r2. */
  function CaseOf(k: nat): Case
    requires k < 16
  {
    Case(k / 8 == 1, k / 4 % 2 == 1, k / 2 % 2 == 1, k % 2 == 1)
  }

  /** The four declared constants the case assertions pin down. */
  datatype Unknown = I1Const | I2Const | R1Const | R2Const

  /** The assertions of a case block, as values. */
  datatype Assertion =
    | AssertConst(u: Unknown, value: bool)   // (assert (= u value))
    | AssertOutIsAnd                         // (assert (= out (and i1 i2)))

  function BoolText(b: bool): string
  {
    if b then "true" else "false"
  }

  function AssertPrefix(u: Unknown): string
  {
    match u
    case I1Const => "(assert (= i1 "
    case I2Const => "(assert (= i2 "
    case R1Const => "(assert (= r1 "
    case R2Const => "(assert (= r2 "
  }

  /** The pieces one assertion is written as. */
  function AssertionPieces(a: Assertion): seq<string>
  {
    match a
    case AssertConst(u, value) => [AssertPrefix(u), BoolText(value), "))\n"]
    case AssertOutIsAnd => ["(assert (= out (and i1 i2)))\n"]
  }

  /** The five assertions written for one case, in order. */
  function CaseAssertions(c: Case): seq<Assertion>
  {
    [AssertConst(I1Const, c.i1), AssertConst(I2Const, c.i2), AssertConst(R1Const, c.r1), AssertConst(R2Const, c.r2),
     AssertOutIsAnd]
  }

  function CaseBlock(c: Case): seq<string>
  {
    var asserts := CaseAssertions(c);
    AssertionPieces(asserts[0]) + AssertionPieces(asserts[1]) + AssertionPieces(asserts[2]) +
    AssertionPieces(asserts[3]) + AssertionPieces(asserts[4])
  }

  /** The pieces of a list of case blocks, in order. */
  function Blocks(cases: seq<Case>): seq<string>
  {
    if cases == [] then [] else Blocks(cases[..|cases| - 1]) + CaseBlock(cases[|cases| - 1])
  }

  /** The five appends of one loop iteration write the case's block. */
  lemma CaseBlockWritten(before: seq<string>, c: Case)
    ensures before + ["(assert (= i1 ", if c.i1 then "true" else "false", "))\n"]
              + ["(assert (= i2 ", if c.i2 then "true" else "false", "))\n"]
              + ["(assert (= r1 ", if c.r1 then "true" else "false", "))\n"]
              + ["(assert (= r2 ", if c.r2 then "true" else "false", "))\n"]
              + ["(assert (= out (and i1 i2)))\n"] == before + CaseBlock(c)
  {
  }

  /** One iteration of the innermost loop writes the next case's block. */
  lemma CaseWritten(before: seq<string>, cases: seq<Case>, c: Case)
    requires |cases| < 16 && cases == EnumeratedCases()[..|cases|] && c == CaseOf(|cases|)
    requires before == HeaderPieces + Blocks(cases)
    ensures cases + [c] == EnumeratedCases()[..|cases| + 1]
    ensures before + ["(assert (= i1 ", if c.i1 then "true" else "false", "))\n"]
              + ["(assert (= i2 ", if c.i2 then "true" else "false", "))\n"]
              + ["(assert (= r1 ", if c.r1 then "true" else "false", "))\n"]
              + ["(assert (= r2 ", if c.r2 then "true" else "false", "))\n"]
              + ["(assert (= out (and i1 i2)))\n"] == HeaderPieces + Blocks(cases + [c])
  {
    EnumerationStep(cases, c);
    CaseBlockWritten(before, c);
    BlocksSnoc(HeaderPieces, cases, c);
  }

  /** After the loops, the footer completes the program. */
  lemma AllCasesWritten(op: BinaryOperator, body: seq<string>, cases: seq<Case>)
    requires |cases| == 16 && cases == EnumeratedCases()[..|cases|]
    requires body == HeaderPieces + Blocks(cases)
    ensures Concat(body + ["(check-sat)\n(get-model)\n"]) == SmtProgramText(op)
  {
    assert cases == EnumeratedCases();
  }

  lemma EnumerationStep(cases: seq<Case>, c: Case)
    requires |cases| < 16 && cases == EnumeratedCases()[..|cases|] && c == CaseOf(|cases|)
    ensures cases + [c] == EnumeratedCases()[..|cases| + 1]
  {
  }

  lemma BlocksSnoc(prefix: seq<string>, cases: seq<Case>, c: Case)
    ensures prefix + Blocks(cases + [c]) == prefix + Blocks(cases) + CaseBlock(c)
  {
    assert (cases + [c])[..|cases|] == cases;
  }

  /** The 16 cases in the order they are written. */
  function EnumeratedCases(): (cs: seq<Case>)
    ensures |cs| == 16
  {
    seq(16, k requires 0 <= k < 16 => CaseOf(k))
  }

  /** Every block takes 13 pieces, so piece j of the k-th case block is piece
      13k + j of the case section. */
  lemma {:induction false} BlockAt(cases: seq<Case>, k: nat, j: nat)
    requires k < |cases| && j < 13
    ensures |Blocks(cases)| == 13 * |cases|
    ensures Blocks(cases)[13 * k + j] == CaseBlock(cases[k])[j]
  {
    var init, last := cases[..|cases| - 1], cases[|cases| - 1];
    var front, block := Blocks(init), CaseBlock(last);
    assert Blocks(cases) == front + block;
    BlocksLength(init);
    CaseBlockLength(last);
    if k < |init| {
      BlockAt(init, k, j);
      assert init[k] == cases[k];
      assert (front + block)[13 * k + j] == front[13 * k + j];
    } else {
      assert (front + block)[13 * k + j] == block[j];
    }
  }

  lemma {:induction false} BlocksLength(cases: seq<Case>)
    ensures |Blocks(cases)| == 13 * |cases|
  {
    if cases != [] {
      BlocksLength(cases[..|cases| - 1]);
      CaseBlockLength(cases[|cases| - 1]);
    }
  }

  lemma CaseBlockLength(c: Case)
    ensures |CaseBlock(c)| == 13
  {
  }

  /** Everything the generator writes, in order. */
  function ProgramPieces(op: BinaryOperator): seq<string>
  {
    HeaderPieces + Blocks(EnumeratedCases()) + [Epilogue]
  }

  /** The text `generateSMTInput` returns for the operator `op`. */
  function SmtProgramText(op: BinaryOperator): string
  {
    Concat(ProgramPieces(op))
  }

  /** The program does not depend on the operator being masked: the target
      is `(and i1 i2)` for `&`, `|`, `<<` and every other opcode alike. */
  lemma SmtProgramTextIgnoresOperator(op1: BinaryOperator, op2: BinaryOperator)
    ensures SmtProgramText(op1) == SmtProgramText(op2)
  {
  }

  /** The text opens with the logic and produce-models header and closes with
      the check-sat/get-model footer. */
  lemma SmtProgramFraming(op: BinaryOperator)
    ensures var t := SmtProgramText(op);
            Concat(HeaderPieces) <= t && |t| >= |Epilogue| && t[|t| - |Epilogue|..] == Epilogue
  {
    ConcatFraming(HeaderPieces, Blocks(EnumeratedCases()), Epilogue);
  }

  /** `generateSMTInput`: the header, then the 16 case blocks, then the
      check-sat/get-model footer. The four nested loops over {false, true}
      (I1 outermost, R2 innermost) are written as one loop over the case number
      k, whose binary digits are I1 I2 R1 R2; the cases come in the same order.
      The stream is the list of pieces written to it, and its text their
      concatenation; `cases` records the cases written so far. */
  method GenerateSMTInput(op: BinaryOperator) returns (text: string)
    ensures text == SmtProgramText(op)
  {
    var bools := [false, true];
    var oss := HeaderPieces;
    ghost var cases: seq<Case> := [];
    for k := 0 to 16
      invariant |cases| == k && cases == EnumeratedCases()[..k]
      invariant oss == HeaderPieces + Blocks(cases)
    {
      var I1, I2, R1, R2 := bools[k / 8], bools[k / 4 % 2], bools[k / 2 % 2], bools[k % 2];
      ghost var before := oss;
      oss := oss + ["(assert (= i1 ", if I1 then "true" else "false", "))\n"];
      oss := oss + ["(assert (= i2 ", if I2 then "true" else "false", "))\n"];
      oss := oss + ["(assert (= r1 ", if R1 then "true" else "false", "))\n"];
      oss := oss + ["(assert (= r2 ", if R2 then "true" else "false", "))\n"];
      oss := oss + ["(assert (= out (and i1 i2)))\n"];
      CaseWritten(before, cases, Case(I1, I2, R1, R2));
      cases := cases + [Case(I1, I2, R1, R2)];
    }
    ghost var body := oss;
    oss := oss + ["(check-sat)\n(get-model)\n"];
    text := Concat(oss);
    AllCasesWritten(op, body, cases);
  }

  // ---------------------------------------------------------------------
  // What the program means
  // ---------------------------------------------------------------------

  /** An interpretation of the program's unknowns. */
  datatype SmtModel = SmtModel(
    i1: bool, i2: bool, r1: bool, r2: bool,
    opFpAnd: bool, opFpOr: bool, opFpXor: bool,
    opFppAnd: bool, opFppOr: bool, opFppXor: bool)

  function ConstValue(m: SmtModel, u: Unknown): bool
  {
    match u
    case I1Const => m.i1
    case I2Const => m.i2
    case R1Const => m.r1
    case R2Const => m.r2
  }

  /** The defined function `fp` (and `fpp`, with the other selectors): a
      selector test in the order and, or, with xor as the fall-through. */
  function SelectedValue(selAnd: bool, selOr: bool, x1: bool, x2: bool): bool
  {
    if selAnd then x1 && x2 else if selOr then x1 || x2 else x1 != x2
  }

  /** The defined function `out` under an interpretation. */
  function OutValue(m: SmtModel): bool
  {
    var x1, x2 := m.i1 != m.r1, m.i2 != m.r2;
    SelectedValue(m.opFpAnd, m.opFpOr, x1, x2) != SelectedValue(m.opFppAnd, m.opFppOr, x1, x2)
  }

  predicate Holds(m: SmtModel, a: Assertion)
  {
    match a
    case AssertConst(u, value) => ConstValue(m, u) == value
    case AssertOutIsAnd => OutValue(m) == (m.i1 && m.i2)
  }

  /** The case assertions cannot all hold: they pin the single constant `i1` to
      false (case 0) and to true (case 8). Every interpretation, whatever it picks
      for the selectors, falsifies one of them, so the solver can only answer unsat. */
  lemma EmittedAssertionsUnsatisfiable(m: SmtModel)
    ensures exists k, j :: 0 <= k < 16 && 0 <= j < 5 && !Holds(m, CaseAssertions(CaseOf(k))[j])
  {
    var k := if m.i1 then 0 else 8;
    assert !Holds(m, CaseAssertions(CaseOf(k))[0]);
  }

  /** No operator pair makes `out` equal i1 && i2 in all 16 cases at once:
      `out` depends on the masked bits only, and the cases i = (1, 1), r = (0, 0)
      and i = (0, 0), r = (1, 1) have the same masked bits but different targets.
      This is the goal the program was meant to encode; the goals it actually
      writes leave the inputs unconstrained, so on their own they are met, for
      instance with every constant false and `^` in both slots. */
  lemma NoOperatorPairMasksAnd(fpAnd: bool, fpOr: bool, fppAnd: bool, fppOr: bool)
    ensures exists c: Case ::
      OutValue(SmtModel(c.i1, c.i2, c.r1, c.r2, fpAnd, fpOr, !fpAnd && !fpOr, fppAnd, fppOr, !fppAnd && !fppOr))
        != (c.i1 && c.i2)
  {
    var m1 := SmtModel(true, true, false, false, fpAnd, fpOr, !fpAnd && !fpOr, fppAnd, fppOr, !fppAnd && !fppOr);
    var m2 := SmtModel(false, false, true, true, fpAnd, fpOr, !fpAnd && !fpOr, fppAnd, fppOr, !fppAnd && !fppOr);
    assert OutValue(m1) == OutValue(m2);
    if OutValue(m1) == (m1.i1 && m1.i2) {
      assert OutValue(m2) != (m2.i1 && m2.i2);
      assert Case(m2.i1, m2.i2, m2.r1, m2.r2).i1 == m2.i1;
    } else {
      assert Case(m1.i1, m1.i2, m1.r1, m1.r2).i1 == m1.i1;
    }
  }

  // ---------------------------------------------------------------------
  // Reading the reply
  // ---------------------------------------------------------------------

  /** A line of the reply sets a selector when it mentions the selector's name
      and the word "true" anywhere in it. */
  predicate LineSets(line: string, name: string)
  {
    Contains(line, name) && Contains(line, "true")
  }

  /** Whether one of the first n lines sets the selector `name`. */
  predicate SetInFirst(lines: seq<string>, n: nat, name: string)
    requires n <= |lines|
  {
    n > 0 && (SetInFirst(lines, n - 1, name) || LineSets(lines[n - 1], name))
  }

  /** The flag the scan ends with for the selector `name`. */
  predicate SelectorSet(reply: string, name: string)
  {
    var lines := Lines(reply);
    SetInFirst(lines, |lines|, name)
  }

  /** A flag ends up set exactly when some line of the reply sets it. */
  lemma {:induction false} SetInFirstIff(lines: seq<string>, n: nat, name: string)
    requires n <= |lines|
    ensures SetInFirst(lines, n, name) <==> exists j :: 0 <= j < n && LineSets(lines[j], name)
  {
    if n > 0 {
      SetInFirstIff(lines, n - 1, name);
    }
  }

  /** The operator token chosen from a selector group: and before or, xor when
      neither is set (the xor flag itself is never consulted). */
  function OpToken(selAnd: bool, selOr: bool): string
  {
    if selAnd then "(&&" else if selOr then "(||" else "(^"
  }

  /** The rewriting of a token into a C operator. */
  function NormalizedOp(token: string): string
  {
    if token == "(^" then "^" else if token == "(&&" then "&&" else if token == "(||" then "||" else token
  }

  /** The C operator a selector group yields: always one of the three operators
      of the grammar, `&&` exactly when the and-selector is set, `||` exactly when
      only the or-selector is. */
  function ChosenOp(selAnd: bool, selOr: bool): (op: string)
    ensures op == "&&" || op == "||" || op == "^"
    ensures op == "&&" <==> selAnd
    ensures op == "||" <==> !selAnd && selOr
  {
    NormalizedOp(OpToken(selAnd, selOr))
  }

  const CodeHead: string :=
    "{\n" +
    "  bool r1 = get_random();\n" +
    "  bool r2 = get_random();\n" +
    "  bool masked_i1 = i1 ^ r1;\n" +
    "  bool masked_i2 = i2 ^ r2;\n" +
    "  bool fp = (masked_i1  "

  const CodeMiddle: string := " masked_i2);\n  bool fpp = (masked_i1  "

  const CodeTail: string :=
    " masked_i2);\n" +
    "  bool out = fp ^ fpp;\n" +
    "  out;\n" +
    "}"

  /** The emitted block with the two operator slots filled in. */
  function GadgetCode(fpOp: string, fppOp: string): string
  {
    CodeHead + fpOp + CodeMiddle + fppOp + CodeTail
  }

  /** The pair of operators `parseSMTOutput` settles on for a reply: for each
      slot, `&&` exactly when some line sets its and-selector, otherwise `||`
      exactly when some line sets its or-selector, otherwise `^`. */
  function ChosenOps(reply: string): (ops: (string, string))
    ensures ops.0 in {"^", "&&", "||"} && ops.1 in {"^", "&&", "||"}
    ensures ops.0 == "&&" <==> SelectorSet(reply, "op_fp_and")
    ensures ops.0 == "||" <==> !SelectorSet(reply, "op_fp_and") && SelectorSet(reply, "op_fp_or")
    ensures ops.1 == "&&" <==> SelectorSet(reply, "op_fpp_and")
    ensures ops.1 == "||" <==> !SelectorSet(reply, "op_fpp_and") && SelectorSet(reply, "op_fpp_or")
  {
    (ChosenOp(SelectorSet(reply, "op_fp_and"), SelectorSet(reply, "op_fp_or")),
     ChosenOp(SelectorSet(reply, "op_fpp_and"), SelectorSet(reply, "op_fpp_or")))
  }

  /** The code `parseSMTOutput` returns for a reply. */
  function ParsedCode(reply: string): string
  {
    GadgetCode(ChosenOps(reply).0, ChosenOps(reply).1)
  }

  /** The returned block names the chosen operators and nothing else: a block
      with any operator pair equal to it has exactly the chosen pair. */
  lemma ParsedCodeDeterminesOps(reply: string, a: string, b: string)
    requires a in {"^", "&&", "||"}
    requires ParsedCode(reply) == GadgetCode(a, b)
    ensures (a, b) == ChosenOps(reply)
  {
    GadgetCodeInjective(a, b, ChosenOps(reply).0, ChosenOps(reply).1);
  }

  /** `parseSMTOutput`: six flags set by a scan over the reply's lines, the
      operator tokens chosen from them, normalised, and filled into the block. */
  method ParseSMTOutput(smtOutput: string) returns (code: string)
    ensures code == ParsedCode(smtOutput)
  {
    var fpAnd, fpOr, fpXor := false, false, false;
    var fppAnd, fppOr, fppXor := false, false, false;
    var lines := Lines(smtOutput);
    for i := 0 to |lines|
      invariant fpAnd == SetInFirst(lines, i, "op_fp_and")
      invariant fpOr == SetInFirst(lines, i, "op_fp_or")
      invariant fppAnd == SetInFirst(lines, i, "op_fpp_and")
      invariant fppOr == SetInFirst(lines, i, "op_fpp_or")
    {
      var line := lines[i];
      if Contains(line, "op_fp_and") && Contains(line, "true") { fpAnd := true; }
      if Contains(line, "op_fp_or") && Contains(line, "true") { fpOr := true; }
      if Contains(line, "op_fp_xor") && Contains(line, "true") { fpXor := true; }
      if Contains(line, "op_fpp_and") && Contains(line, "true") { fppAnd := true; }
      if Contains(line, "op_fpp_or") && Contains(line, "true") { fppOr := true; }
      if Contains(line, "op_fpp_xor") && Contains(line, "true") { fppXor := true; }
    }
    var fpOp := if fpAnd then "(&&" else if fpOr then "(||" else "(^";
    var fppOp := if fppAnd then "(&&" else if fppOr then "(||" else "(^";

    if fpOp == "(^" { fpOp := "^"; }
    else if fpOp == "(&&" { fpOp := "&&"; }
    else if fpOp == "(||" { fpOp := "||"; }

    if fppOp == "(^" { fppOp := "^"; }
    else if fppOp == "(&&" { fppOp := "&&"; }
    else if fppOp == "(||" { fppOp := "||"; }

    code := CodeHead + fpOp + CodeMiddle + fppOp + CodeTail;
  }

  /** The defined function `fp` of the program and the C operator read back for
      the same selector values compute the same thing: the priority of the reply
      scan matches the nesting of the `ite`s. */
  lemma SelectedValueIsChosenOp(selAnd: bool, selOr: bool, x1: bool, x2: bool)
    ensures SelectedValue(selAnd, selOr, x1, x2) == CValue(ChosenOp(selAnd, selOr), x1, x2)
  {
  }

  /** The value of `x1 op x2` in C on 0/1 operands, for the three operators of
      the block. */
  function CValue(op: string, x1: bool, x2: bool): bool
  {
    if op == "&&" then x1 && x2 else if op == "||" then x1 || x2 else x1 != x2
  }

  /** The value the emitted block computes: `fp ^ fpp` on the masked inputs. */
  function GadgetValue(fpOp: string, fppOp: string, c: Case): bool
  {
    var x1, x2 := c.i1 != c.r1, c.i2 != c.r2;
    CValue(fpOp, x1, x2) != CValue(fppOp, x1, x2)
  }

  /** Whatever the solver answers, the block returned is not an AND gadget: for
      some inputs and random bits it does not compute i1 && i2. */
  lemma NoReplyYieldsAndGadget(reply: string)
    ensures exists c: Case :: GadgetValue(ChosenOps(reply).0, ChosenOps(reply).1, c) != (c.i1 && c.i2)
  {
    var (fpOp, fppOp) := ChosenOps(reply);
    var c1, c2 := Case(true, true, false, false), Case(false, false, true, true);
    if GadgetValue(fpOp, fppOp, c1) == (c1.i1 && c1.i2) {
      assert GadgetValue(fpOp, fppOp, c2) != (c2.i1 && c2.i2);
    }
  }

  /** A reply that never says "true" (an unsat answer, an error message, the
      text "ERROR") sets no flag, and both operators default to xor. */
  lemma ReplyWithoutTrueChoosesXor(reply: string)
    requires !Contains(reply, "true")
    ensures ChosenOps(reply) == ("^", "^")
  {
    var lines := Lines(reply);
    SetInFirstIff(lines, |lines|, "op_fp_and");
    SetInFirstIff(lines, |lines|, "op_fp_or");
    SetInFirstIff(lines, |lines|, "op_fpp_and");
    SetInFirstIff(lines, |lines|, "op_fpp_or");
    forall j | 0 <= j < |lines|
      ensures !Contains(lines[j], "true")
    {
      LineInText(reply, lines[j]);
      var i: nat :| OccursAt(reply, lines[j], i);
      if Contains(lines[j], "true") {
        ContainsInPiece(reply, lines[j], "true", i);
      }
    }
  }

  /** The reply standing for a solver that could not be started. */
  lemma ErrorReplyChoosesXor()
    ensures ChosenOps("ERROR") == ("^", "^")
  {
    var s := "ERROR";
    forall i: nat | i + 4 <= |s|
      ensures !OccursAt(s, "true", i)
    {
      assert s[i] != 't';
    }
    ContainsIff(s, "true");
    ReplyWithoutTrueChoosesXor(s);
  }

  /** The block determines the operators filled into it. */
  lemma GadgetCodeInjective(a: string, b: string, c: string, d: string)
    requires a in {"^", "&&", "||"} && c in {"^", "&&", "||"}
    requires GadgetCode(a, b) == GadgetCode(c, d)
    ensures a == c && b == d
  {
    var n := |CodeHead|;
    assert GadgetCode(a, b)[n] == a[0];
    assert GadgetCode(c, d)[n] == c[0];
    assert a == c;
    var m := n + |a| + |CodeMiddle|;
    assert GadgetCode(a, b)[m..|GadgetCode(a, b)| - |CodeTail|] == b;
    assert GadgetCode(c, d)[m..|GadgetCode(c, d)| - |CodeTail|] == d;
  }

  /** The block obtained from a solver for the (fixed) program text. */
  function SynthesizedCode(solver: string -> string, op: BinaryOperator): string
  {
    ParsedCode(solver(SmtProgramText(op)))
  }

  /** `maskNonlinearOperation`: generate, ask the solver, read the block back;
      the counter goes up by two (for r1 and r2) whatever the solver says. */
  method MaskNonlinearOperation(op: BinaryOperator, solver: string -> string, randomVarCounter: nat)
    returns (maskedCode: string, newCounter: nat)
    ensures newCounter == randomVarCounter + 2
    ensures maskedCode == SynthesizedCode(solver, op)
  {
    var smtInput := GenerateSMTInput(op);
    var smtOutput := solver(smtInput);
    maskedCode := ParseSMTOutput(smtOutput);
    newCounter := randomVarCounter + 2;
  }
}
