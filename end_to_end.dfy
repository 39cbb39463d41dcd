/** The equivalence check run on the reference program. `main` insists on three
    arguments, while the check's inputs are lines of two numbers, so every
    run of the original program is a usage error and the check rejects any
    transformation, the identity included. With three-argument inputs the
    reference program is accepted against any program that behaves like it. */
module EndToEnd {
  import opened Strings
  import opened ReferenceProgram
  import opened Verification

  /** The process result of running the reference program with `args`. */
  function ReferenceRun(args: seq<string>): (p: ProcessResult)
    ensures p.status == 0 <==> |args| >= 3
  {
    var r := Main(args);
    ProcessResult(r.status, r.stdout)
  }

  /** The toolchain builds `code` into the reference program: it compiles, and
      every run behaves as `main` does. */
  ghost predicate RunsReferenceProgram(tc: Toolchain, code: string)
  {
    tc.compileStatus(code) == 0 &&
    forall args: seq<string> :: tc.execute(code, args) == ReferenceRun(args)
  }

  lemma WordsOfTestInput()
    ensures Words(TestInputs[0]) == ["5", "3"]
  {
    assert TestInputs[0] == "5" + " " + "3";
    WordsOfJoin("5", "3");
    WordsOfWord("3");
  }

  /** Under the shipped inputs the reference program fails on the first input:
      the check stops after running it once, and its answer is false. */
  lemma TwoArgumentVectorsRejectReference(tc: Toolchain, original: string, transformed: string)
    requires RunsReferenceProgram(tc, original)
    ensures RunOutcome(tc, original, TestInputs[0]).None?
    ensures !AgreesOn(tc, original, transformed, TestInputs[0])
    ensures Trace(tc, original, transformed, TestInputs) == [Call(original, "5 3")]
  {
    WordsOfTestInput();
    assert tc.execute(original, Words(TestInputs[0])).status == 1;
  }

  /** Three words separated by single blanks are three arguments. */
  lemma WordsOfThree(a: string, b: string, c: string)
    requires a != [] && ' ' !in a && b != [] && ' ' !in b && c != [] && ' ' !in c
    ensures |Words(a + " " + b + " " + c)| == 3
  {
    assert a + " " + b + " " + c == a + " " + (b + " " + c);
    WordsOfJoin(a, b + " " + c);
    WordsOfJoin(b, c);
    WordsOfWord(c);
  }

  lemma WordsOfCorrectedInput0()
    ensures |Words(CorrectedTestInputs[0])| == 3
  {
    WordsOfThree("5", "3", "1");
  }

  lemma WordsOfCorrectedInput1()
    ensures |Words(CorrectedTestInputs[1])| == 3
  {
    WordsOfThree("10", "2", "0");
  }

  lemma WordsOfCorrectedInput2()
    ensures |Words(CorrectedTestInputs[2])| == 3
  {
    WordsOfThree("7", "7", "7");
  }

  /** With three-argument inputs, two builds of the reference program are
      accepted as equivalent. */
  lemma CorrectedVectorsAcceptReference(tc: Toolchain, original: string, transformed: string)
    requires RunsReferenceProgram(tc, original) && RunsReferenceProgram(tc, transformed)
    ensures forall j :: 0 <= j < |CorrectedTestInputs| ==> AgreesOn(tc, original, transformed, CorrectedTestInputs[j])
  {
    forall j | 0 <= j < |CorrectedTestInputs|
      ensures AgreesOn(tc, original, transformed, CorrectedTestInputs[j])
    {
      if j == 0 {
        WordsOfCorrectedInput0();
      } else if j == 1 {
        WordsOfCorrectedInput1();
      } else {
        WordsOfCorrectedInput2();
      }
      var args := Words(CorrectedTestInputs[j]);
      assert tc.execute(original, args) == ReferenceRun(args) == tc.execute(transformed, args);
    }
  }
}
