# TheMask, modelled in Dafny

TheMask is a source-to-source masking tool for C. It is a stand-alone clang-based (LibTooling) tool: it runs a frontend action over the source files it is given and walks the AST of each translation unit.

- When it meets the configured "crypto function", it collects the variables whose names look like keys (the sensitive variables).
- It then rewrites every binary operator that has a sensitive operand:
  - a linear operator (`+`, `-`, `^`) gets a fresh random bit declared in front of it. An operand is xor-ed with that bit only when the operand, as written, is a bare reference to a sensitive variable; an operand behind parentheses or an implicit cast is left as it is;
  - any other operator is replaced by a block of C code. The block is synthesized by writing an SMT-LIB program, handing it to z3, and reading the operator choice back out of the reply.
- A differential verifier compiles the original and the transformed program with gcc, runs both on fixed inputs, and compares their outputs. The tool's driver never invokes it (`src/main.cpp:44-47` only runs the visitor, and `src/MaskingASTVisitor.cpp:3` includes its header without calling it), so it stands as a class of its own.
- A two-share masked algebra over 32-bit words (`mask32_*` gadgets) is defined by hand at the top of a masked test program. The tool itself never emits calls to it; it is the design's intended target for masked code.

The model has nine modules, one file each:

| file | module | models |
|---|---|---|
| `masked_algebra.dfy` | `MaskedAlgebra` | `Masked32` and the gadgets `mask32_create`, `demask`, `xor`, `and`, `or`, `add`, `shiftLeft` over `bv32`. Each gadget's random draw is a parameter, so every law holds for every draw. |
| `smt_masker.dfy` | `SmtMasker` | `generateSMTInput` as a loop writing pieces to a stream, and the meaning of the assertions it emits. `parseSMTOutput` as a loop over the reply's lines, followed by the operator normalisation and the C template. `maskNonlinearOperation` with the solver as an oracle. |
| `clang_ast.dfy` | `ClangAst` | The part of clang's AST the passes look at, `IgnoreParenImpCasts`, and the Rewriter as a list of edits. |
| `sensitive_variable_finder.dfy` | `Sensitivity` | The name-based taint collector, as a class whose set of found declarations grows in place. |
| `masking_visitor.dfy` | `Masking` | The masking visitor. The pure state machine `Step`/`Run` is the specification. The class `MaskingASTVisitor` has one method per visitor function, each proved to move the object as `Step` says. |
| `verifier.dfy` | `Verification` | `verifyEquivalence`'s fail-closed loop, against a toolchain oracle for `compileAndRun`. |
| `reference_program.dfy` | `ReferenceProgram` | `crypto_function` over 32-bit two's-complement words, and `main`'s argument guard, `atoi` parsing and `printf` output. |
| `end_to_end.dfy` | `EndToEnd` | The verifier run on the reference program. |
| `strings.dfy` | `Strings` | `std::string::find`, `std::getline`, `std::to_string`, the stream's concatenation of writes, and the shell's split of a command line into words. |

What the model shows about the tool:

- **The "or" gadget is an AND.** The OR cross terms of two sharings XOR to the AND of the shared values.
- **The naive addition is not addition.** Its result demasks to the XOR of the two share sums, not to the sum.
- **The synthesizer cannot succeed.** The SMT program pins each of `i1`, `i2`, `r1`, `r2` to both `true` and `false`, so no interpretation satisfies it. What the program was meant to ask for is impossible as well: no operator pair makes `out` equal `i1 and i2` in all 16 cases at once, because `fp ^ fpp` sees only the masked bits. (The goals as written, without the pinning assertions, only constrain the constants and are met, for instance, with every constant false and `^` in both slots.) Every reply therefore gives a block that is not an AND gadget. An `ERROR` reply, or any reply without the word `true`, gives the block with `^` in both slots.
- **The synthesized block declares its own `r1`.** The block always declares `r1` and `r2` itself, whatever the counter, and its `r1` can shadow the `r1` the linear path declares (`NonlinearBlockDeclaresR1`).
- **On ordinary C the linear path wraps nothing.** clang reads a variable's value through an implicit lvalue-to-rvalue cast, so in `x ^ k` neither operand is a bare reference. The operator is still recognised as sensitive (the check strips the casts), but only the declaration of the random bit is inserted and no operand is xor-ed with it (`LinearLeavesWrappedOperands`).
- **The linear path numbers its variables properly.** In any traversal from a fresh visitor, the declarations inserted by the linear path are pairwise distinct. The counter never goes down, and masking, once switched on, stays on.
- **The verifier class, taken on its own, always rejects the reference program.** Its inputs carry two numbers each, while `main` demands three arguments. The first run of the original program is therefore a usage error, and the check answers false for every transformation, the identity included.

## Model

| member | source | states |
|---|---|---|
| MaskedAlgebra.Demask | test/input_masked.c:27-30 | The plaintext XOR either share gives back the other share, so a pair of shares stands for exactly one plaintext. |
| MaskedAlgebra.Create | test/input_masked.c:20-30 | The random draw becomes the second share, and the pair demasks back to the masked value for every draw. |
| MaskedAlgebra.Xor | test/input_masked.c:33-38 | Share-wise XOR draws no randomness, and its result demasks to the XOR of the two demasked operands. |
| MaskedAlgebra.And | test/input_masked.c:40-47 | For every fresh word `r`, the AND gadget's result demasks to the AND of the demasked operands. |
| MaskedAlgebra.Or | test/input_masked.c:49-56 | The fresh word cancels, and the "or" gadget's result demasks to the AND of the demasked operands, not their OR. |
| MaskedAlgebra.OrCrossTerms | test/input_masked.c:54 | The four OR cross terms of two sharings XOR to the AND of the shared values. |
| MaskedAlgebra.OrDemasksToAnd | test/input_masked.c:49-56 | Counterexample: masking 0 and 1 and combining them with the "or" gadget demasks to 0, while the OR of 0 and 1 is 1. |
| MaskedAlgebra.OrCorrected | test/input_masked.c:49-56 | The corrected OR gadget demasks to the OR of the demasked operands for every fresh word. |
| MaskedAlgebra.Add | test/input_masked.c:58-65 | The fresh word cancels, and the naive addition demasks to the XOR of the two share sums modulo 2^32. |
| MaskedAlgebra.AddIsNotSum | test/input_masked.c:58-65 | Counterexample to the naive addition: masking 1 and 0 with draw 1 and adding them demasks to 3, where the plaintext sum is 1. |
| MaskedAlgebra.ShiftLeft | test/input_masked.c:67-72 | Shifting both shares left by a public amount below 32 shifts the demasked value by that amount. |
| MaskedAlgebra.AndOnFreshMasks | test/input_masked.c:20-47 | Masking two values with any draws and combining them with the AND gadget demasks to their AND. |
| MaskedAlgebra.OrOnFreshMasks | test/input_masked.c:20-56 | Masking two values with any draws and combining them with the "or" gadget demasks to their AND. |
| MaskedAlgebra.OrCorrectedOnFreshMasks | test/input_masked.c:20-56 | Masking two values with any draws and combining them with the corrected gadget demasks to their OR. |
| SmtMasker.GenerateSMTInput | src/SMTMasker.cpp:25-138 | The stream loop returns exactly the program text: the header, the 16 case blocks in enumeration order, then the footer. |
| SmtMasker.EnumeratedCases | src/SMTMasker.cpp:119-123 | The enumeration visits 16 cases. |
| SmtMasker.CaseBlockWritten | src/SMTMasker.cpp:124-130 | The five writes of one iteration are the case's block: i1, i2, r1, r2, then the `out` goal. |
| SmtMasker.CaseWritten | src/SMTMasker.cpp:119-134 | One iteration appends the next case in enumeration order, and the stream grows by exactly that case's block. |
| SmtMasker.EnumerationStep | src/SMTMasker.cpp:119-123 | Case k of the loop is the k-th case of the enumeration: false before true, `I1` outermost and `R2` innermost. |
| SmtMasker.BlocksSnoc | src/SMTMasker.cpp:119-134 | Writing one more case appends its block after the blocks already written. |
| SmtMasker.AllCasesWritten | src/SMTMasker.cpp:136-137 | After all 16 cases, writing the footer gives the program text. |
| SmtMasker.BlocksLength | src/SMTMasker.cpp:119-134 | The case section holds 13 pieces per case. |
| SmtMasker.CaseBlockLength | src/SMTMasker.cpp:124-130 | One case block is 13 pieces. |
| SmtMasker.BlockAt | src/SMTMasker.cpp:119-134 | Piece 13k + j of the case section is piece j of the k-th case's block. |
| SmtMasker.SmtProgramTextIgnoresOperator | src/SMTMasker.cpp:25-137 | The program text is the same for every operator: the target is always `(and i1 i2)`. |
| SmtMasker.SmtProgramFraming | src/SMTMasker.cpp:47-136 | The text starts with the whole header (logic, produce-models, declarations) and ends with `(check-sat)\n(get-model)\n`. |
| SmtMasker.EmittedAssertionsUnsatisfiable | src/SMTMasker.cpp:119-130 | Every interpretation falsifies some assertion of some case block, because `i1` is pinned to false in case 0 and to true in case 8. |
| SmtMasker.NoOperatorPairMasksAnd | src/SMTMasker.cpp:33 | For every choice of `fp` and `fpp` selectors, some case makes `out` differ from `i1 and i2`: no pair meets the goal in all 16 cases at once. |
| SmtMasker.SetInFirstIff | src/SMTMasker.cpp:171-186 | A scan flag is set after n lines exactly when one of those lines mentions both the selector and `true`. |
| SmtMasker.ParseSMTOutput | src/SMTMasker.cpp:161-234 | The scan loop keeps each flag equal to "some line so far sets it", and the method returns the template filled with the chosen operators. |
| SmtMasker.ChosenOp | src/SMTMasker.cpp:192-193 | After normalisation the operator is one of `^`, `&&` and the logical or. It is `&&` exactly when the and-flag is set, and the logical or exactly when only the or-flag is. |
| SmtMasker.ChosenOps | src/SMTMasker.cpp:171-221 | Each slot gets one of `^`, `&&`, `||`: `&&` exactly when some line sets its and-selector, `||` exactly when none sets the and-selector but some line sets the or-selector, `^` otherwise. |
| SmtMasker.ParsedCodeDeterminesOps | src/SMTMasker.cpp:222-233 | A returned block equal to the template filled with any operator pair has exactly the chosen pair in its slots. |
| SmtMasker.SelectedValueIsChosenOp | src/SMTMasker.cpp:192-193 | The operator read back computes the same bit as the SMT `ite` definition of `fp` for the same selector values. |
| SmtMasker.NoReplyYieldsAndGadget | src/SMTMasker.cpp:221-231 | Whatever the reply, the emitted block fails to compute `i1 && i2` for some inputs and random bits. |
| SmtMasker.ReplyWithoutTrueChoosesXor | src/SMTMasker.cpp:171-193 | A reply that never contains `true` (unsat, an error message) makes both operators `^`. |
| SmtMasker.ErrorReplyChoosesXor | src/SMTMasker.cpp:150 | The `ERROR` reply of a solver that cannot be started makes both operators `^`. |
| SmtMasker.GadgetCodeInjective | src/SMTMasker.cpp:221-231 | Only the two operator slots of the template vary: the block determines the operators put in it. |
| SmtMasker.MaskNonlinearOperation | src/SMTMasker.cpp:9-23 | The counter goes up by exactly 2 whatever the solver says, and the code is the block parsed from the solver's reply to the program text. |
| ClangAst.IgnoreParenImpCasts | src/MaskingASTVisitor.cpp:28-29 | The result is neither a parenthesis nor an implicit cast. It is the expression itself when that is neither, and otherwise a subexpression of it. |
| Sensitivity.KeyDecls | src/SensitiveVariableFinder.cpp:8-14 | A declaration is collected exactly when it is among those visited and its name contains `key` or equals `k`. |
| Sensitivity.IsSensitiveIn | src/SensitiveVariableFinder.cpp:16-22 | Sensitive exactly when the expression is a reference to a variable declaration in the set. Other expressions, and references to non-variables, are not. |
| Sensitivity.ClassificationByNameOnly | src/SensitiveVariableFinder.cpp:8-14 | Two declarations with the same name are classified alike: only names matter. |
| Sensitivity.SensitiveVariableFinder.constructor | src/SensitiveVariableFinder.cpp:6 | A new finder has found nothing. |
| Sensitivity.SensitiveVariableFinder.VisitVarDecl | src/SensitiveVariableFinder.cpp:8-14 | The declaration is added exactly when its name passes the key test, nothing is removed, and the traversal always goes on. |
| Sensitivity.SensitiveVariableFinder.TraverseDecl | src/SensitiveVariableFinder.cpp:8-14 | Traversing a function adds exactly its key-named declarations to what was found before. |
| Sensitivity.SensitiveVariableFinder.IsSensitive | src/SensitiveVariableFinder.cpp:16-22 | A reference to a found variable declaration, and nothing else, is sensitive. |
| Sensitivity.SensitiveVariableFinder.GetSensitiveVars | src/SensitiveVariableFinder.cpp:24-26 | Returns the found set and changes nothing. |
| Masking.RandomVarDeclInjective | src/MaskingASTVisitor.cpp:56-57 | Different counter values give different `bool r<n> = get_random();` declarations. |
| Masking.FunctionDeclStep | src/MaskingASTVisitor.cpp:13-22 | A function declaration switches masking on exactly when it names the crypto function, or keeps it on. It never touches the counter or the edits, and the finder's set only grows. |
| Masking.LinearStep | src/MaskingASTVisitor.cpp:54-73 | The counter goes up by one. The edits are extended by one to three entries, the first being the insertion of `bool r<old counter> = get_random();` at the operator token. Masking switch and sensitive sets are unchanged. |
| Masking.NonlinearStep | src/MaskingASTVisitor.cpp:37-41 | The counter goes up by two, and exactly one edit is appended, a replacement of the whole operator range. Masking switch and sensitive sets are unchanged. |
| Masking.BinaryOperatorStep | src/MaskingASTVisitor.cpp:25-44 | Nothing changes when masking does not apply. When it applies, the counter goes up by one on `+`, `-`, `^` and by two on every other opcode. |
| Masking.BinaryOperatorUnchangedIff | src/MaskingASTVisitor.cpp:25-44 | A binary operator leaves the state exactly as it was if and only if masking does not apply: outside the crypto function, or with no stripped operand sensitive. |
| Masking.BinaryOperatorKeepsTaint | src/MaskingASTVisitor.cpp:25-44 | A binary operator never changes the masking switch or the sensitive sets. The counter never decreases, and edits are only appended. |
| Masking.LinearPath | src/MaskingASTVisitor.cpp:54-73 | On `+`, `-`, `^` the counter goes up by one. One insertion of `bool r<old counter> = get_random();` is made at the operator token, followed by one replacement per operand that is itself a sensitive reference. |
| Masking.LinearWrapsShareName | src/MaskingASTVisitor.cpp:61-71 | Both operands are wrapped as `(text ^ r<n>)` with the same name. Each text is read after the insertion and before either replacement. |
| Masking.LinearLeavesWrappedOperands | src/MaskingASTVisitor.cpp:64-71 | An operand in parentheses or behind an implicit cast is not wrapped, even when its inner reference made the operator sensitive. |
| Masking.NonlinearPath | src/MaskingASTVisitor.cpp:37-41 | Every other opcode with a sensitive operand raises the counter by 2 and replaces the whole operator range with the synthesized block. |
| Masking.NonlinearWithFailedSolver | src/MaskingASTVisitor.cpp:37-41 | With a solver that cannot be started, the operator is replaced by the block with `^` in both slots. |
| Masking.FunctionDeclEffect | src/MaskingASTVisitor.cpp:13-22 | Masking is switched on by the crypto function and never off. The sensitive set changes only for a crypto-function declaration with a body, and then becomes everything the finder has collected. Nothing is rewritten. |
| Masking.NumberingRaised | src/MaskingASTVisitor.cpp:56 | Declarations numbered below a bound stay numbered below any larger bound. |
| Masking.ReplacementsKeepNumbering | src/MaskingASTVisitor.cpp:64-71 | Appending replacements keeps the inserted declarations numbered and distinct. |
| Masking.LinearStepKeepsNumbering | src/MaskingASTVisitor.cpp:54-73 | The linear path keeps every insertion numbered below the counter and all insertions distinct. |
| Masking.StepKeepsNumbering | src/MaskingASTVisitor.cpp:13-44 | Any visit keeps the numbering invariant, never lowers the counter, and never switches masking off. |
| Masking.RunKeepsNumbering | src/MaskingASTVisitor.cpp:13-44 | Any sequence of visits keeps the numbering invariant, never lowers the counter, and never switches masking off. |
| Masking.RandomVarDeclsDistinct | src/MaskingASTVisitor.cpp:11 | From a freshly constructed visitor, the random-variable declarations inserted by the linear path are pairwise distinct, whatever is visited. |
| Masking.NonlinearBlockDeclaresR1 | src/SMTMasker.cpp:221-223 | Every synthesized block declares `r1` with the same text the linear path uses for counter 1, whatever the counter is. |
| Masking.DeclOfR1 | src/MaskingASTVisitor.cpp:56-57 | The linear path's declaration for counter 1 is `bool r1 = get_random();`. |
| Masking.CodeHeadDeclaresR1 | src/SMTMasker.cpp:222-223 | The block's second line declares `r1`. |
| Masking.MaskingASTVisitor.constructor | src/MaskingASTVisitor.cpp:10-11 | A new visitor has counter 0, masking off, nothing sensitive and no edits. |
| Masking.MaskingASTVisitor.VisitFunctionDecl | src/MaskingASTVisitor.cpp:13-22 | The visitor and its finder move exactly as the function-declaration step says, and the traversal goes on. |
| Masking.MaskingASTVisitor.VisitBinaryOperator | src/MaskingASTVisitor.cpp:25-44 | The visitor moves exactly as the binary-operator step says (no change, linear path or nonlinear path), and the traversal goes on. |
| Masking.MaskingASTVisitor.IsSensitive | src/MaskingASTVisitor.cpp:46-52 | Sensitive exactly when the expression is a reference to a variable in the visitor's sensitive set. |
| Masking.MaskingASTVisitor.MaskLinearOperation | src/MaskingASTVisitor.cpp:54-73 | The visitor moves exactly as the linear step says: post-incremented counter, insertion, then the wraps. |
| Verification.RunOutcome | src/Verifier.cpp:29-59 | `compileAndRun` succeeds exactly when both compiling and running exit with status 0, and it then delivers the program's standard output. |
| Verification.CompileAndRun | src/Verifier.cpp:29-59 | Reports success exactly as the outcome says, with the program's output on success. |
| Verification.FirstDisagreement | src/Verifier.cpp:15-26 | The programs agree on every input before the returned index and disagree on the input at it, if there is one. |
| Verification.VerifyEquivalenceOver | src/Verifier.cpp:15-26 | Answers true if and only if both programs run and agree on every input. The calls it makes are exactly the trace. |
| Verification.VerifyEquivalence | src/Verifier.cpp:11-27 | On the fixed inputs `5 3`, `10 2`, `7 7`: true exactly when the programs agree on all three, making the calls of the trace. |
| Verification.VerifyEquivalenceCorrected | src/Verifier.cpp:11-27 | The same check on three-argument inputs. |
| Verification.TraceAlternates | src/Verifier.cpp:18-21 | For each input the original is run first, then the transformed program, with at most two calls per input. |
| Verification.TraceStops | src/Verifier.cpp:18-24 | The calls stop at the first disagreement: right after the original if it failed, otherwise after the transformed program. No later input is tried. |
| Verification.FailureRejects | src/Verifier.cpp:18-21 | A failure of either program on an input means disagreement there, so the first disagreement is no later. |
| ReferenceProgram.CryptoFunction | test/input.c:14-31 | The low bit of the result is the low bit of the key, since the final shift brings in a zero. |
| ReferenceProgram.CryptoFunctionWithZeroKey | test/input.c:16-30 | With the zero key the result is twice the wrapped sum of the public inputs. |
| ReferenceProgram.LeadingDigits | test/input.c:39-41 | `atoi` reads the longest digit prefix (the character after it, if any, is not a digit), and a string of digits is read whole. |
| ReferenceProgram.Atoi | test/input.c:39-41 | A string of digits reads as its decimal value, and a minus sign followed by digits as the negated value. |
| ReferenceProgram.FormatInt | test/input.c:44 | `%d` output is non-empty, starts with no white space and holds no line break. |
| ReferenceProgram.AtoiOfFormatInt | test/input.c:39-44 | What `printf("%d")` writes, `atoi` reads back as the same integer. |
| ReferenceProgram.Main | test/input.c:33-47 | Exit status 0 exactly when there are at least three arguments (argc >= 4). Otherwise status 1 and nothing on stdout. On success the output is one line. |
| ReferenceProgram.MainPrintsCryptoFunction | test/input.c:39-46 | With three arguments, the printed line reads back as `crypto_function` of the three parsed arguments. |
| EndToEnd.ReferenceRun | test/input.c:33-47 | As a process, the reference program exits 0 exactly when it gets at least three arguments. |
| EndToEnd.WordsOfTestInput | src/Verifier.cpp:13 | The first test input `5 3` is passed as the two arguments `5` and `3`. |
| EndToEnd.TwoArgumentVectorsRejectReference | src/Verifier.cpp:13 | With the reference program as the original, the first input is a usage error. The check makes only that one call and answers false, whatever the transformed program. |
| EndToEnd.WordsOfThree | src/Verifier.cpp:42 | Three blank-separated words are three arguments. |
| EndToEnd.WordsOfCorrectedInput0 | src/Verifier.cpp:42 | The first three-argument input is passed as three arguments. |
| EndToEnd.WordsOfCorrectedInput1 | src/Verifier.cpp:42 | The second three-argument input is passed as three arguments. |
| EndToEnd.WordsOfCorrectedInput2 | src/Verifier.cpp:42 | The third three-argument input is passed as three arguments. |
| EndToEnd.CorrectedVectorsAcceptReference | src/Verifier.cpp:15-26 | With three-argument inputs, two programs that both behave as the reference program agree on every input. |
| Strings.ContainsIff | src/SensitiveVariableFinder.cpp:10 | `Strings.Contains`, the model of `find(pat) != npos`, holds exactly when `pat` occurs at some index. |
| Strings.ContainsInPiece | src/SMTMasker.cpp:177-178 | A pattern found in a line of the reply is found in the reply. |
| Strings.Lines | src/SMTMasker.cpp:175-177 | The lines `getline` yields contain no newline, and there are none exactly when the text is empty. |
| Strings.LinesOfSingleLine | src/SMTMasker.cpp:175-177 | A text without a newline is read as exactly one line. |
| Strings.LineInText | src/SMTMasker.cpp:175-177 | Every line read occurs in the text. |
| Strings.ConcatSplit | src/SMTMasker.cpp:46-137 | Writing two lists of pieces one after the other gives the concatenation of their texts. |
| Strings.ConcatFraming | src/SMTMasker.cpp:46-137 | A text written as head, body and tail starts with the head's text and ends with the tail. |
| Strings.Words | src/Verifier.cpp:42 | The arguments the shell passes are non-empty and contain no blank. |
| Strings.WordsOfWord | src/Verifier.cpp:42 | A single word is passed as one argument. |
| Strings.WordsOfJoin | src/Verifier.cpp:42 | A word followed by a blank is the first argument, and the rest of the line gives the others. |
| Strings.NatToString | src/MaskingASTVisitor.cpp:56 | `to_string` of a counter is a non-empty string of decimal digits with no leading zero. |
| Strings.DigitsValueOfNatToString | src/MaskingASTVisitor.cpp:56 | Reading back the digits `to_string` wrote gives the number. |
| Strings.NatToStringInjective | src/MaskingASTVisitor.cpp:56 | Different counters are written differently. |

## Left out

- The external processes are oracles:
  - the z3 process behind `callSMTSolver` is a function from program text to reply, with `ERROR` standing for a failed `popen`;
  - gcc and the compiled program behind `compileAndRun` are functions giving an exit status and the standard output.
  
  The temporary files, their clean-up and `2>&1` merging are not modelled.
- `get_random32` and `rand()` are not modelled. Each draw is a parameter of the gadget and every law is stated for all draws. Leakage and probing security are not functional properties and are not stated.
- The clang Rewriter is a list of the edits made through it. `getRewrittenText` is a function of that list and a range, supplied by the environment. How the rewriter composes overlapping edits is not modelled.
- Masking.MaskingASTVisitor.VisitBinaryOperator: the traversal order of `RecursiveASTVisitor` is not modelled. A traversal is the sequence of visits it makes (`Run`).
- `MaskingASTConsumer`, `MaskingFrontendAction`, `main.cpp`, the header files and `test/input2.c` are not part of this model. Neither are the lines of `test/input_masked.c` after `mask32_shiftLeft`, which are not valid C.
- SmtMasker.GenerateSMTInput: the four nested loops over `{false, true}` are one loop over the case number k, whose binary digits are `I1 I2 R1 R2`. The cases come in the same order. The `ostringstream` is the list of pieces written to it.
- MaskedAlgebra.ShiftLeft: the shift amount is a 5-bit word. A C shift of a 32-bit word by 32 or more is undefined, so only amounts below 32 are modelled.
- ReferenceProgram.CryptoFunction: C `int` arithmetic is modelled as 32-bit two's-complement wrap-around. C leaves signed overflow and the left shift of a negative value undefined.
- ReferenceProgram.Main: `atoi` of a number outside the `int` range is undefined in C. The model keeps the low 32 bits.
- Masking.LinearStep: the counter is a C++ `int` in the source, and incrementing it past `INT_MAX` is undefined behaviour. The model's counter is an unbounded natural number, so it does not capture that overflow.
- Verification.CompileAndRun: on failure the source leaves the output argument unassigned. The model returns the empty string and promises nothing about it.
- The `ProcessResult` of a program that crashes or is killed by a signal is an ordinary nonzero status.

## Findings

| source | as written | input that shows it | evidently intended | confidence | as-written member | corrected member |
|---|---|---|---|---|---|---|
| test/input_masked.c:49-56 | The second share XORs the four OR cross terms of the shares. These XOR to the AND of the plaintexts. | `mask32_or(mask32_create(0), mask32_create(1))` with every draw 0 demasks to 0, while the OR of 0 and 1 is 1. | A gadget that demasks to the OR of the plaintexts, for example AND's shares with the share-wise XOR folded in (a OR b equals `a ^ b ^ (a & b)`). | not executed | MaskedAlgebra.OrDemasksToAnd | MaskedAlgebra.OrCorrected |
| src/Verifier.cpp:13 | The test inputs `5 3`, `10 2`, `7 7` pass two arguments, and the program under test (test/input.c:34-37) exits with status 1 when given fewer than three. | The reference program as the original: its first run exits 1, so `verifyEquivalence` answers false, even when the transformed program is the same. | Inputs with three arguments, under which the reference program is accepted against any program that behaves like it. | not executed | EndToEnd.TwoArgumentVectorsRejectReference | EndToEnd.CorrectedVectorsAcceptReference |
