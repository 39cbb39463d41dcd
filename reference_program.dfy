/** The reference program the masking tool is run on: `crypto_function` and the
    `main` that reads its three arguments from the command line and prints the
    result. C's `int` is modelled as a 32-bit two's-complement word whose
    arithmetic wraps around (signed overflow and the left shift of a negative value
    are undefined in C; the model assumes what common compilers do). */
module ReferenceProgram {
  import opened Strings

  /** `crypto_function(x, k, z)`, step by step: the key `k` enters through the AND
      of step 1, the XOR of step 2 and the final XOR of step 4. The low bit of the
      result is always the low bit of the key, since step 4 shifts a zero into it. */
  function CryptoFunction(x: bv32, k: bv32, z: bv32): (d: bv32)
    ensures d & 1 == k & 1
  {
    var a := x & k;
    var b := (x ^ k) + z;
    var c := a | b;
    (c << 1) ^ k
  }

  /** With the zero key the function is the doubled sum of its public inputs. */
  lemma CryptoFunctionWithZeroKey(x: bv32, z: bv32)
    ensures CryptoFunction(x, 0, z) == (x + z) << 1
  {
  }

  /** The process outcome of `main`: exit status and what it wrote to stdout (the
      usage message goes to stderr and is not part of it). */
  datatype RunResult = RunResult(status: int, stdout: string)

  predicate IsSpace(c: char)
  {
    c == ' ' || c == '\t' || c == '\n' || c == '\U{0B}' || c == '\U{0C}' || c == '\r'
  }

  /** The longest prefix of `s` made of decimal digits. */
  function LeadingDigits(s: string): (d: string)
    ensures AllDigits(d) && d <= s
    ensures |d| < |s| ==> !IsDigit(s[|d|])
    ensures AllDigits(s) ==> d == s
  {
    if s != [] && IsDigit(s[0]) then [s[0]] + LeadingDigits(s[1..]) else []
  }

  /** `atoi`: leading white space, an optional sign, then as many digits as follow.
      A string with no digits reads as 0. */
  function Atoi(s: string): (r: int)
    ensures AllDigits(s) ==> r == DigitsValue(s)
    ensures s != [] && s[0] == '-' && AllDigits(s[1..]) ==> r == 0 - DigitsValue(s[1..]) as int
  {
    if s != [] && IsSpace(s[0]) then Atoi(s[1..])
    else if s != [] && s[0] == '-' then 0 - DigitsValue(LeadingDigits(s[1..])) as int
    else if s != [] && s[0] == '+' then DigitsValue(LeadingDigits(s[1..]))
    else DigitsValue(LeadingDigits(s))
  }

  /** `printf("%d", i)` without the line break: an optional minus sign and the
      digits of the magnitude. */
  function FormatInt(i: int): (s: string)
    ensures s != [] && !IsSpace(s[0])
    ensures '\n' !in s
  {
    var digits := NatToString(if i < 0 then -i else i);
    forall j | 0 <= j < |digits|
      ensures digits[j] != '\n'
    {
      assert IsDigit(digits[j]);
    }
    if i < 0 then "-" + digits else digits
  }

  /** What `printf("%d")` writes, `atoi` reads back. */
  lemma {:induction false} AtoiOfFormatInt(i: int)
    ensures Atoi(FormatInt(i)) == i
  {
    var n: nat := if i < 0 then -i else i;
    var digits := NatToString(n);
    DigitsValueOfNatToString(n);
    if i < 0 {
      assert FormatInt(i)[1..] == digits;
    } else {
      assert FormatInt(i) == digits;
      assert IsDigit(digits[0]);
    }
  }

  /** The value of a C `int` held in the word `w`. */
  function Int32Value(w: bv32): int
  {
    if w < 0x8000_0000 then w as int else w as int - 0x1_0000_0000
  }

  /** Conversion of an integer to a C `int`, keeping the low 32 bits. */
  function ToInt32(i: int): bv32
  {
    (i % 0x1_0000_0000) as bv32
  }

  /** `main(argc, argv)` with `args` standing for argv[1..]: fewer than three
      arguments (argc < 4) is a usage error with exit status 1 and nothing on
      stdout, and `crypto_function` is not called; otherwise the result of
      `crypto_function` on the three parsed arguments is printed on one line and the
      exit status is 0. */
  function Main(args: seq<string>): (r: RunResult)
    ensures r.status == 0 <==> |args| + 1 >= 4
    ensures r.status != 0 ==> r.status == 1 && r.stdout == ""
    ensures r.status == 0 ==> |r.stdout| >= 2 && r.stdout[|r.stdout| - 1] == '\n'
    ensures r.status == 0 ==> '\n' !in r.stdout[..|r.stdout| - 1]
  {
    var argc := |args| + 1;
    if argc < 4 then RunResult(1, "")
    else
      var x := ToInt32(Atoi(args[0]));
      var k := ToInt32(Atoi(args[1]));
      var z := ToInt32(Atoi(args[2]));
      var y := CryptoFunction(x, k, z);
      RunResult(0, FormatInt(Int32Value(y)) + "\n")
  }

  /** The line `main` prints reads back as the value `crypto_function` returned. */
  lemma MainPrintsCryptoFunction(args: seq<string>)
    requires |args| >= 3
    ensures var out := Main(args).stdout;
            Atoi(out[..|out| - 1]) ==
            Int32Value(CryptoFunction(ToInt32(Atoi(args[0])), ToInt32(Atoi(args[1])), ToInt32(Atoi(args[2]))))
  {
    var y := CryptoFunction(ToInt32(Atoi(args[0])), ToInt32(Atoi(args[1])), ToInt32(Atoi(args[2])));
    var out := Main(args).stdout;
    assert out[..|out| - 1] == FormatInt(Int32Value(y));
    AtoiOfFormatInt(Int32Value(y));
  }
}
