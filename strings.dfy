/** Text primitives the C++ sources rely on: substring search (std::string::find),
    line splitting (std::getline), decimal rendering (std::to_string) and the shell's
    splitting of a command line into arguments. */
module Strings {

  /** `pat` occurs in `s` starting at index `i`. */
  predicate OccursAt(s: string, pat: string, i: nat)
  {
    i + |pat| <= |s| && s[i..i + |pat|] == pat
  }

  lemma OccursAtShift(s: string, pat: string, j: nat)
    requires |s| > 0
    ensures OccursAt(s[1..], pat, j) <==> OccursAt(s, pat, j + 1)
  {
    if j + |pat| <= |s[1..]| {
      assert s[1..][j..j + |pat|] == s[j + 1..j + 1 + |pat|];
    }
  }

  /** `s.find(pat) != std::string::npos`, computed by trying each start in turn. */
  function Contains(s: string, pat: string): bool
    decreases |s|
  {
    if OccursAt(s, pat, 0) then true
    else if s == [] then false
    else Contains(s[1..], pat)
  }

  /** `Contains` holds exactly when `pat` occurs at some index of `s`. */
  lemma {:induction false} ContainsIff(s: string, pat: string)
    ensures Contains(s, pat) <==> exists i: nat :: OccursAt(s, pat, i)
    decreases |s|
  {
    if !OccursAt(s, pat, 0) && s != [] {
      ContainsIff(s[1..], pat);
      if Contains(s, pat) {
        var j: nat :| OccursAt(s[1..], pat, j);
        OccursAtShift(s, pat, j);
      }
      if i: nat :| OccursAt(s, pat, i) {
        assert i != 0;
        OccursAtShift(s, pat, i - 1);
      }
    }
  }

  /** A pattern found in a piece of a text is found in the text. */
  lemma ContainsInPiece(s: string, piece: string, pat: string, i: nat)
    requires OccursAt(s, piece, i) && Contains(piece, pat)
    ensures Contains(s, pat)
  {
    ContainsIff(piece, pat);
    var j: nat :| OccursAt(piece, pat, j);
    assert piece == s[i..i + |piece|];
    forall k | 0 <= k < |pat|
      ensures s[i + j + k] == pat[k]
    {
      assert pat[k] == piece[j + k];
    }
    assert OccursAt(s, pat, i + j);
    ContainsIff(s, pat);
  }

  /** Index of the first occurrence of `c` in `s`, or `|s|` when there is none. */
  function IndexOf(s: string, c: char): (i: nat)
    ensures i <= |s|
    ensures i < |s| ==> s[i] == c
    ensures forall j :: 0 <= j < i ==> s[j] != c
  {
    if s == [] then 0
    else if s[0] == c then 0
    else 1 + IndexOf(s[1..], c)
  }

  /** The lines `std::getline` yields when reading `s` through an `istringstream`:
      pieces separated by '\n'; a final piece without a newline is still a line,
      and a trailing newline does not produce an extra empty line. */
  function Lines(s: string): (ls: seq<string>)
    ensures forall l :: l in ls ==> '\n' !in l
    ensures s == [] <==> ls == []
    decreases |s|
  {
    if s == [] then []
    else
      var i := IndexOf(s, '\n');
      if i == |s| then [s] else [s[..i]] + Lines(s[i + 1..])
  }

  /** A string without a newline is read as exactly one line. */
  lemma {:induction false} LinesOfSingleLine(s: string)
    requires s != [] && '\n' !in s
    ensures Lines(s) == [s]
  {
    assert IndexOf(s, '\n') == |s|;
  }

  /** Every line is a piece of the text it was read from. */
  lemma {:induction false} LineInText(s: string, l: string)
    requires l in Lines(s)
    ensures exists i: nat :: OccursAt(s, l, i)
    decreases |s|
  {
    var k := IndexOf(s, '\n');
    if k == |s| || l == s[..k] {
      assert OccursAt(s, l, 0);
    } else {
      var t := s[k + 1..];
      LineInText(t, l);
      var j: nat :| OccursAt(t, l, j);
      assert s[k + 1 + j..k + 1 + j + |l|] == t[j..j + |l|];
      assert OccursAt(s, l, k + 1 + j);
    }
  }

  /** The text of pieces written one after the other to a stream. */
  function Concat(ps: seq<string>): string
  {
    if ps == [] then [] else Concat(ps[..|ps| - 1]) + ps[|ps| - 1]
  }

  /** Writing `a` and then `b` gives the text of `a` followed by that of `b`. */
  lemma {:induction false} ConcatSplit(a: seq<string>, b: seq<string>)
    ensures Concat(a + b) == Concat(a) + Concat(b)
    decreases |b|
  {
    if b != [] {
      var b' := b[..|b| - 1];
      assert (a + b)[..|a + b| - 1] == a + b';
      ConcatSplit(a, b');
    } else {
      assert a + b == a;
    }
  }

  /** A text written as a head, a body and a tail starts with the head's text
      and ends with the tail. */
  lemma ConcatFraming(head: seq<string>, body: seq<string>, tail: string)
    ensures var t := Concat(head + body + [tail]);
            Concat(head) <= t && |t| >= |tail| && t[|t| - |tail|..] == tail
  {
    ConcatSplit(head + body, [tail]);
    ConcatSplit(head, body);
    assert Concat([tail]) == tail by {
      assert [tail][..0] == [];
    }
  }

  /** The arguments a POSIX shell passes to a program for the words of a command
      line that holds no quoting or globbing: maximal runs of non-blank characters. */
  function Words(s: string): (ws: seq<string>)
    ensures forall w :: w in ws ==> w != [] && ' ' !in w
    decreases |s|
  {
    if s == [] then []
    else if s[0] == ' ' then Words(s[1..])
    else
      var i := IndexOf(s, ' ');
      [s[..i]] + Words(s[i..])
  }

  /** A single word is passed as one argument. */
  lemma WordsOfWord(w: string)
    requires w != [] && ' ' !in w
    ensures Words(w) == [w]
  {
    assert w[0] in w;
    assert IndexOf(w, ' ') == |w|;
    assert w[..|w|] == w && w[|w|..] == [];
  }

  /** A word followed by a blank is passed as the first argument, and the rest of
      the line gives the remaining ones. */
  lemma WordsOfJoin(w: string, rest: string)
    requires w != [] && ' ' !in w
    ensures Words(w + " " + rest) == [w] + Words(rest)
  {
    var s := w + " " + rest;
    var i := IndexOf(s, ' ');
    assert s[|w|] == ' ';
    forall j | 0 <= j < |w|
      ensures s[j] != ' '
    {
      assert s[j] == w[j] && w[j] in w;
    }
    assert i == |w|;
    assert s[..i] == w;
    assert s[i..][1..] == rest;
  }

  predicate IsDigit(c: char)
  {
    '0' <= c <= '9'
  }

  predicate AllDigits(s: string)
  {
    forall i :: 0 <= i < |s| ==> IsDigit(s[i])
  }

  function DigitChar(d: nat): (c: char)
    requires d < 10
    ensures IsDigit(c) && c as int - '0' as int == d
  {
    ('0' as int + d) as char
  }

  /** `std::to_string` of a non-negative integer: its decimal digits, no sign and
      no leading zero. */
  function NatToString(n: nat): (s: string)
    ensures |s| >= 1 && AllDigits(s)
    ensures n >= 10 ==> s[0] != '0'
  {
    if n < 10 then [DigitChar(n)] else NatToString(n / 10) + [DigitChar(n % 10)]
  }

  /** The value of a string of decimal digits, read left to right. */
  function DigitsValue(s: string): nat
    requires AllDigits(s)
  {
    if s == [] then 0
    else DigitsValue(s[..|s| - 1]) * 10 + (s[|s| - 1] as int - '0' as int)
  }

  /** Reading back what `NatToString` wrote gives the number again. */
  lemma {:induction false} DigitsValueOfNatToString(n: nat)
    ensures DigitsValue(NatToString(n)) == n
  {
    if n >= 10 {
      var s := NatToString(n);
      assert s[..|s| - 1] == NatToString(n / 10);
      DigitsValueOfNatToString(n / 10);
    }
  }

  /** Different numbers are written differently. */
  lemma NatToStringInjective(a: nat, b: nat)
    requires NatToString(a) == NatToString(b)
    ensures a == b
  {
    DigitsValueOfNatToString(a);
    DigitsValueOfNatToString(b);
  }
}
