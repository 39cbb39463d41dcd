/** The differential equivalence check: both programs are compiled and run on
    each test input in turn, and their standard outputs must be identical. The
    compiler and the compiled programs are an oracle: the exit status of the
    compiler for a source text, and the exit status and standard output of the
    compiled program for a list of command-line arguments. */
module Verification {
  import opened Strings

  datatype Option<T> = None | Some(value: T)

  /** What running a process gives back. */
  datatype ProcessResult = ProcessResult(status: int, stdout: string)

  /** The compiler and the programs it builds. The shell's `./temp_program
      <input>` passes the words of the input as the arguments. */
  datatype Toolchain = Toolchain(
    compileStatus: string -> int,
    execute: (string, seq<string>) -> ProcessResult)

  /** What `compileAndRun` delivers for a source text and an input line: the
      program's standard output when both compiling and running it exit with
      status 0, and nothing otherwise. */
  function RunOutcome(tc: Toolchain, code: string, input: string): (r: Option<string>)
    ensures r.Some? <==> tc.compileStatus(code) == 0 && tc.execute(code, Words(input)).status == 0
    ensures r.Some? ==> r.value == tc.execute(code, Words(input)).stdout
  {
    if tc.compileStatus(code) != 0 then None
    else
      var run := tc.execute(code, Words(input));
      if run.status != 0 then None else Some(run.stdout)
  }

  /** `compileAndRun`: compile, stop at a nonzero status; run, stop at a nonzero
      status; otherwise hand back what the program printed. On failure the
      output parameter is left alone; here it is the empty string, and nothing
      is promised about it. */
  method CompileAndRun(tc: Toolchain, code: string, input: string) returns (ok: bool, output: string)
    ensures ok <==> RunOutcome(tc, code, input).Some?
    ensures ok ==> output == RunOutcome(tc, code, input).value
  {
    var compileResult := tc.compileStatus(code);
    if compileResult != 0 {
      return false, "";
    }
    var run := tc.execute(code, Words(input));
    if run.status != 0 {
      return false, "";
    }
    return true, run.stdout;
  }

  /** Both programs run successfully on the input and print the same thing. */
  predicate AgreesOn(tc: Toolchain, original: string, transformed: string, input: string)
  {
    var o, t := RunOutcome(tc, original, input), RunOutcome(tc, transformed, input);
    o.Some? && t.Some? && o.value == t.value
  }

  /** One `compileAndRun` call: which program, on which input. */
  datatype Call = Call(code: string, input: string)

  /** The calls made for the inputs: per input, the original and then the
      transformed program, stopping after the first failure or mismatch. */
  function Trace(tc: Toolchain, original: string, transformed: string, inputs: seq<string>): seq<Call>
  {
    if inputs == [] then []
    else if RunOutcome(tc, original, inputs[0]).None? then [Call(original, inputs[0])]
    else if !AgreesOn(tc, original, transformed, inputs[0]) then
      [Call(original, inputs[0]), Call(transformed, inputs[0])]
    else
      [Call(original, inputs[0]), Call(transformed, inputs[0])] + Trace(tc, original, transformed, inputs[1..])
  }

  /** The index of the first input the programs do not agree on, or the number
      of inputs when they agree on all of them. */
  function FirstDisagreement(tc: Toolchain, original: string, transformed: string, inputs: seq<string>): (k: nat)
    ensures k <= |inputs|
    ensures forall j :: 0 <= j < k ==> AgreesOn(tc, original, transformed, inputs[j])
    ensures k < |inputs| ==> !AgreesOn(tc, original, transformed, inputs[k])
  {
    if inputs == [] then 0
    else if !AgreesOn(tc, original, transformed, inputs[0]) then 0
    else 1 + FirstDisagreement(tc, original, transformed, inputs[1..])
  }

  /** The loop of `verifyEquivalence` over a list of inputs. It answers true
      exactly when the programs agree on every input, and it makes the calls of
      `Trace`: for each input the original first, and nothing after the first
      failure or mismatch. */
  method VerifyEquivalenceOver(tc: Toolchain, originalCode: string, transformedCode: string, testInputs: seq<string>)
    returns (ok: bool, ghost calls: seq<Call>)
    ensures ok <==> forall j :: 0 <= j < |testInputs| ==> AgreesOn(tc, originalCode, transformedCode, testInputs[j])
    ensures calls == Trace(tc, originalCode, transformedCode, testInputs)
  {
    calls := [];
    for i := 0 to |testInputs|
      invariant forall j :: 0 <= j < i ==> AgreesOn(tc, originalCode, transformedCode, testInputs[j])
      invariant calls + Trace(tc, originalCode, transformedCode, testInputs[i..]) ==
                Trace(tc, originalCode, transformedCode, testInputs)
    {
      var input := testInputs[i];
      assert testInputs[i..][0] == input && testInputs[i..][1..] == testInputs[i + 1..];
      var okOriginal, outputOriginal := CompileAndRun(tc, originalCode, input);
      calls := calls + [Call(originalCode, input)];
      if !okOriginal {
        return false, calls;
      }
      var okTransformed, outputTransformed := CompileAndRun(tc, transformedCode, input);
      calls := calls + [Call(transformedCode, input)];
      if !okTransformed {
        return false, calls;
      }
      if outputOriginal != outputTransformed {
        return false, calls;
      }
    }
    assert testInputs[|testInputs|..] == [];
    return true, calls;
  }

  /** The inputs `verifyEquivalence` uses: three lines of two numbers each. */
  const TestInputs: seq<string> := ["5 3", "10 2", "7 7"]

  /** Three-argument vectors for a three-parameter function such as
      `crypto_function`. */
  const CorrectedTestInputs: seq<string> := ["5 3 1", "10 2 0", "7 7 7"]

  /** `verifyEquivalence`, as written: the loop over `TestInputs`. */
  method VerifyEquivalence(tc: Toolchain, originalCode: string, transformedCode: string)
    returns (ok: bool, ghost calls: seq<Call>)
    ensures ok <==> forall j :: 0 <= j < |TestInputs| ==> AgreesOn(tc, originalCode, transformedCode, TestInputs[j])
    ensures calls == Trace(tc, originalCode, transformedCode, TestInputs)
  {
    ok, calls := VerifyEquivalenceOver(tc, originalCode, transformedCode, TestInputs);
  }

  /** `verifyEquivalence` with the three-argument vectors. */
  method VerifyEquivalenceCorrected(tc: Toolchain, originalCode: string, transformedCode: string)
    returns (ok: bool, ghost calls: seq<Call>)
    ensures ok <==> forall j :: 0 <= j < |CorrectedTestInputs| ==>
                      AgreesOn(tc, originalCode, transformedCode, CorrectedTestInputs[j])
    ensures calls == Trace(tc, originalCode, transformedCode, CorrectedTestInputs)
  {
    ok, calls := VerifyEquivalenceOver(tc, originalCode, transformedCode, CorrectedTestInputs);
  }

  /** The calls alternate: call 2j runs the original and call 2j + 1 the
      transformed program, both on input j. */
  lemma {:induction false} TraceAlternates(tc: Toolchain, original: string, transformed: string, inputs: seq<string>)
    ensures var calls := Trace(tc, original, transformed, inputs);
            |calls| <= 2 * |inputs| &&
            forall n :: 0 <= n < |calls| ==>
              calls[n] == Call(if n % 2 == 0 then original else transformed, inputs[n / 2])
  {
    if inputs != [] && AgreesOn(tc, original, transformed, inputs[0]) {
      var rest := Trace(tc, original, transformed, inputs[1..]);
      TraceAlternates(tc, original, transformed, inputs[1..]);
      var calls := Trace(tc, original, transformed, inputs);
      forall n | 2 <= n < |calls|
        ensures calls[n] == Call(if n % 2 == 0 then original else transformed, inputs[n / 2])
      {
        assert calls[n] == rest[n - 2];
        assert inputs[1..][(n - 2) / 2] == inputs[n / 2];
      }
    }
  }

  /** Where the calls stop: after both programs ran on every input when they
      agree throughout; otherwise at the first input they do not agree on, right
      after the original when the original is the one that failed, and after the
      transformed program otherwise. No later input is tried. */
  lemma {:induction false} TraceStops(tc: Toolchain, original: string, transformed: string, inputs: seq<string>)
    ensures var k := FirstDisagreement(tc, original, transformed, inputs);
            |Trace(tc, original, transformed, inputs)| ==
              if k == |inputs| then 2 * k
              else if RunOutcome(tc, original, inputs[k]).None? then 2 * k + 1
              else 2 * k + 2
  {
    if inputs != [] && AgreesOn(tc, original, transformed, inputs[0]) {
      TraceStops(tc, original, transformed, inputs[1..]);
      var k := FirstDisagreement(tc, original, transformed, inputs);
      if k < |inputs| {
        assert inputs[1..][k - 1] == inputs[k];
      }
    }
  }

  /** Fails closed: when either program cannot be compiled or run on one of the
      inputs, the answer is false. */
  lemma FailureRejects(tc: Toolchain, original: string, transformed: string, inputs: seq<string>, k: nat)
    requires k < |inputs|
    requires RunOutcome(tc, original, inputs[k]).None? || RunOutcome(tc, transformed, inputs[k]).None?
    ensures !AgreesOn(tc, original, transformed, inputs[k])
    ensures FirstDisagreement(tc, original, transformed, inputs) <= k
  {
  }
}
