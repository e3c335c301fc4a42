/** The C++ judge of the `sum_kasiopea` fixture. It reads the number of test
    cases and, for each, the two numbers of the input, the reference sum
    and the contestant's answer; it accepts with exit code 42 when every
    answer is the sum and nothing but whitespace follows them, and rejects
    with exit code 43 otherwise. The input and reference files are given as
    the values their reads produce; the contestant's standard input is
    given as text, read the way `scanf("%lld")` reads it. */
module SumKasiopeaJudge {
  import opened Common
  import opened Text
  import opened FixtureNumbers

  /** How the process ends: a failed `assert` aborts it; `verdict` writes
      its message to standard error and exits with a code. */
  datatype Outcome = Abort | Exit(code: int, message: string)

  const InvalidFormat := "Invalid format"
  const WrongAnswer := "Wrong answer"
  const CorrectAnswer := "Correct answer"

  /** `verdict`: 42 for an accepted answer, 43 for a rejected one. */
  function Verdict(ok: bool, msg: string): (o: Outcome)
    ensures o.Exit? && o.message == msg
    ensures o.code == 42 <==> ok
    ensures o.code == 43 <==> !ok
  {
    Exit(if ok then 42 else 43, msg)
  }

  // ---------------------------------------------------------------------------
  // Reading a `long long` from the standard input

  predicate IsDecimalDigit(c: char)
  {
    '0' <= c <= '9'
  }

  /** The length of the run of decimal digits that starts `s`. */
  function DigitRun(s: string): (n: nat)
    ensures n <= |s|
    ensures forall i :: 0 <= i < n ==> IsDecimalDigit(s[i])
    ensures n < |s| ==> !IsDecimalDigit(s[n])
  {
    if s == [] || !IsDecimalDigit(s[0]) then 0 else 1 + DigitRun(s[1..])
  }

  /** A non-empty run of decimal digits has a value. */
  lemma {:induction false} DecimalParses(s: string)
    requires s != [] && forall i :: 0 <= i < |s| ==> IsDecimalDigit(s[i])
    ensures ParseDigits(s, 10).Some?
    decreases |s|
  {
    if |s| > 1 {
      DecimalParses(s[..|s| - 1]);
    }
  }

  /** The text after an optional leading sign. */
  function Unsigned(u: string): string
  {
    if u != [] && (u[0] == '-' || u[0] == '+') then u[1..] else u
  }

  /** An optional sign and the longest run of decimal digits, of which
      there must be at least one: the value and the text after it. */
  function ScanSigned(u: string): (r: Option<(int, string)>)
    ensures r.Some? <==> DigitRun(Unsigned(u)) > 0
  {
    var body := Unsigned(u);
    var n := DigitRun(body);
    if n == 0 then None
    else
      DecimalParses(body[..n]);
      var m := ParseDigits(body[..n], 10).value;
      Some((if u[0] == '-' then -(m as int) else m, body[n..]))
  }

  /** `scanf("%lld")`: leading whitespace is skipped, then a signed number
      is read; nothing when none can be (a matching failure or the end of
      the input). */
  function ScanLL(s: string): Option<(int, string)>
  {
    ScanSigned(TrimStart(s, IsCSpace))
  }

  /** `k` numbers read one after another, and the text after the last. */
  function ScanMany(s: string, k: nat): (r: Option<(seq<int>, string)>)
    ensures r.Some? ==> |r.value.0| == k
  {
    if k == 0 then Some(([], s))
    else
      match ScanLL(s)
      case None => None
      case Some((v, rest)) =>
        match ScanMany(rest, k - 1)
        case None => None
        case Some((vs, tail)) => Some(([v] + vs, tail))
  }

  // ---------------------------------------------------------------------------
  // The judge

  /** The number of rounds of the loop over the test cases. */
  function Rounds(t: int): nat
  {
    if t > 0 then t else 0
  }

  /** How the judge ends from round `i` on, with `rest` left unread on the
      standard input. */
  function Run(t: int, cases: seq<(int, int)>, correct: seq<int>, i: nat, rest: string): Outcome
    requires t <= |cases| && t <= |correct|
    decreases Rounds(t) - i
  {
    if i >= t then
      if TrimStart(rest, IsCSpace) != [] then Verdict(false, WrongAnswer)
      else Verdict(true, CorrectAnswer)
    else
      match ScanLL(rest)
      case None => Verdict(false, InvalidFormat)
      case Some((contestant, after)) =>
        if cases[i].0 + cases[i].1 != correct[i] then Abort
        else if correct[i] != contestant then Verdict(false, WrongAnswer)
        else Run(t, cases, correct, i + 1, after)
  }

  /** `main`: `t` is the number of test cases read from the input, `cases`
      the pairs read from the input and `correct` the sums read from the
      reference output, in order; `stdin` is the contestant's output. */
  method Judge(t: int, cases: seq<(int, int)>, correct: seq<int>, stdin: string) returns (outcome: Outcome)
    requires t <= |cases| && t <= |correct|
    ensures outcome == Run(t, cases, correct, 0, stdin)
  {
    var rest := stdin;
    var i := 0;
    while i < t
      invariant 0 <= i <= Rounds(t)
      invariant Run(t, cases, correct, i, rest) == Run(t, cases, correct, 0, stdin)
    {
      var (a, b) := cases[i];
      var c := correct[i];
      var scanned := ScanLL(rest);
      if scanned.None? {
        return Verdict(false, InvalidFormat);
      }
      var (contestant, after) := scanned.value;
      if a + b != c {
        return Abort;
      }
      if c != contestant {
        return Verdict(false, WrongAnswer);
      }
      rest := after;
      i := i + 1;
    }
    if TrimStart(rest, IsCSpace) != [] {
      return Verdict(false, WrongAnswer);
    }
    return Verdict(true, CorrectAnswer);
  }

  // ---------------------------------------------------------------------------
  // Properties

  /** Every case from `i` on is consistent: its sum is the reference. */
  predicate Consistent(cases: seq<(int, int)>, correct: seq<int>, i: nat, k: nat)
    requires k <= |cases| && k <= |correct|
  {
    forall j :: i <= j < k ==> cases[j].0 + cases[j].1 == correct[j]
  }

  /** From round `i` on the judge accepts exactly when the remaining rounds
      read the reference sums, every remaining case is consistent and only
      whitespace follows. */
  lemma {:induction false} RunAccepts(t: int, cases: seq<(int, int)>, correct: seq<int>, i: nat, rest: string)
    requires t <= |cases| && t <= |correct| && i <= Rounds(t)
    ensures Run(t, cases, correct, i, rest) == Verdict(true, CorrectAnswer) <==>
              ReadsReference(cases, correct, i, Rounds(t), rest)
    decreases Rounds(t) - i
  {
    var k := Rounds(t);
    if i < k {
      match ScanLL(rest)
      case None =>
        assert ScanMany(rest, k - i) == None;
        assert Run(t, cases, correct, i, rest) == Verdict(false, InvalidFormat);
      case Some((v, after)) =>
        RunAccepts(t, cases, correct, i + 1, after);
        RunAcceptsStep(t, cases, correct, i, rest, v, after);
    } else {
      assert ScanMany(rest, 0) == Some(([], rest));
      assert correct[i..k] == [];
      assert Consistent(cases, correct, i, k);
    }
  }

  /** A round that reads a number accepts as the rounds after it do, when
      the number is the reference sum of a consistent case. */
  lemma RunAcceptsStep(t: int, cases: seq<(int, int)>, correct: seq<int>, i: nat, rest: string, v: int, after: string)
    requires t <= |cases| && t <= |correct| && i < Rounds(t)
    requires ScanLL(rest) == Some((v, after))
    requires Run(t, cases, correct, i + 1, after) == Verdict(true, CorrectAnswer) <==>
               ReadsReference(cases, correct, i + 1, Rounds(t), after)
    ensures Run(t, cases, correct, i, rest) == Verdict(true, CorrectAnswer) <==>
              ReadsReference(cases, correct, i, Rounds(t), rest)
  {
    assert Run(t, cases, correct, i, rest) ==
      if cases[i].0 + cases[i].1 != correct[i] then Abort
      else if correct[i] != v then Verdict(false, WrongAnswer)
      else Run(t, cases, correct, i + 1, after);
    ReadsReferenceStep(cases, correct, i, Rounds(t), rest, v, after);
  }

  /** Reading `k - i` numbers from `rest` gives the reference sums from
      `i` on, each of them consistent with its case, and only whitespace
      follows them. */
  predicate ReadsReference(cases: seq<(int, int)>, correct: seq<int>, i: nat, k: nat, rest: string)
    requires i <= k <= |cases| && k <= |correct|
  {
    var scanned := ScanMany(rest, k - i);
    scanned.Some? && scanned.value.0 == correct[i..k]
    && Consistent(cases, correct, i, k) && TrimStart(scanned.value.1, IsCSpace) == []
  }

  /** Reading the reference from round `i` on is reading its `i`-th sum
      and then the rest of it. */
  lemma ReadsReferenceStep(cases: seq<(int, int)>, correct: seq<int>, i: nat, k: nat, rest: string, v: int, after: string)
    requires i < k <= |cases| && k <= |correct|
    requires ScanLL(rest) == Some((v, after))
    ensures ReadsReference(cases, correct, i, k, rest) <==>
              cases[i].0 + cases[i].1 == correct[i] && v == correct[i]
              && ReadsReference(cases, correct, i + 1, k, after)
  {
    assert Consistent(cases, correct, i, k) <==>
      cases[i].0 + cases[i].1 == correct[i] && Consistent(cases, correct, i + 1, k);
    var sm := ScanMany(after, k - i - 1);
    assert ScanMany(rest, k - i) == if sm.None? then None else Some(([v] + sm.value.0, sm.value.1));
    ConsSlice(correct, i, k);
    if sm.Some? {
      ConsEq(v, sm.value.0, correct[i], correct[i + 1..k]);
    }
  }

  lemma ConsSlice(s: seq<int>, i: nat, k: nat)
    requires i < k <= |s|
    ensures s[i..k] == [s[i]] + s[i + 1..k]
  {
  }

  lemma ConsEq(v: int, vs: seq<int>, w: int, ws: seq<int>)
    ensures [v] + vs == [w] + ws <==> v == w && vs == ws
  {
    if [v] + vs == [w] + ws {
      assert ([v] + vs)[0] == v && ([v] + vs)[1..] == vs;
      assert ([w] + ws)[0] == w && ([w] + ws)[1..] == ws;
    }
  }

  /** The judge accepts exactly when the answers read are the reference
      sums, the reference is consistent with the input, and only whitespace
      follows the last answer. */
  lemma JudgeAccepts(t: int, cases: seq<(int, int)>, correct: seq<int>, stdin: string)
    requires t <= |cases| && t <= |correct|
    ensures Run(t, cases, correct, 0, stdin).Exit? && Run(t, cases, correct, 0, stdin).code == 42 <==>
              var scanned := ScanMany(stdin, Rounds(t));
              scanned.Some? && scanned.value.0 == correct[..Rounds(t)]
              && Consistent(cases, correct, 0, Rounds(t)) && TrimStart(scanned.value.1, IsCSpace) == []
  {
    RunAccepts(t, cases, correct, 0, stdin);
    RunEnds(t, cases, correct, 0, stdin);
  }

  /** The judge ends with one of the three verdicts, or aborts; the code 42
      comes only with "Correct answer". */
  lemma {:induction false} RunEnds(t: int, cases: seq<(int, int)>, correct: seq<int>, i: nat, rest: string)
    requires t <= |cases| && t <= |correct|
    ensures var o := Run(t, cases, correct, i, rest);
            o == Abort || o == Verdict(true, CorrectAnswer)
            || o == Verdict(false, WrongAnswer) || o == Verdict(false, InvalidFormat)
    decreases Rounds(t) - i
  {
    if i < t {
      match ScanLL(rest)
      case None =>
      case Some((v, after)) =>
        RunEnds(t, cases, correct, i + 1, after);
    }
  }

  /** A reference consistent with the input never makes the judge abort. */
  lemma {:induction false} NeverAborts(t: int, cases: seq<(int, int)>, correct: seq<int>, i: nat, rest: string)
    requires t <= |cases| && t <= |correct| && i <= Rounds(t)
    requires Consistent(cases, correct, i, Rounds(t))
    ensures Run(t, cases, correct, i, rest) != Abort
    decreases Rounds(t) - i
  {
    if i < t {
      match ScanLL(rest)
      case None =>
      case Some((v, after)) =>
        NeverAborts(t, cases, correct, i + 1, after);
    }
  }

  // ---------------------------------------------------------------------------
  // The expected answer is accepted

  /** One number per line. */
  function Answer(values: seq<int>): string
  {
    if values == [] then [] else IntToString(values[0]) + ("\n" + Answer(values[1..]))
  }

  lemma {:induction false} DigitsDecimal(n: nat)
    ensures forall i :: 0 <= i < |Digits(n, 10)| ==> IsDecimalDigit(Digits(n, 10)[i])
    decreases n
  {
    if n < 10 {
      DigitValueOfDigitChar(n);
    } else {
      DigitsDecimal(n / 10);
      DigitValueOfDigitChar(n % 10);
    }
  }

  lemma {:induction false} DigitRunConcat(d: string, rest: string)
    requires forall i :: 0 <= i < |d| ==> IsDecimalDigit(d[i])
    requires rest == [] || !IsDecimalDigit(rest[0])
    ensures DigitRun(d + rest) == |d|
  {
    if d != [] {
      assert (d + rest)[1..] == d[1..] + rest;
      DigitRunConcat(d[1..], rest);
    } else {
      assert d + rest == rest;
    }
  }

  /** The digits of `n` followed by something that is not a digit read back
      as `n`. */
  lemma ScanDigits(n: nat, rest: string)
    requires rest == [] || !IsDecimalDigit(rest[0])
    ensures var body := Digits(n, 10) + rest;
            DigitRun(body) == |Digits(n, 10)| && body[..|Digits(n, 10)|] == Digits(n, 10)
            && body[|Digits(n, 10)|..] == rest && ParseDigits(Digits(n, 10), 10) == Some(n)
  {
    DigitsDecimal(n);
    DigitRunConcat(Digits(n, 10), rest);
    ParseDigitsOfDigits(n, 10);
  }

  /** A numeral after whitespace and before something that is not a digit
      is read back as its value. */
  lemma ScanNumeral(pre: string, v: int, rest: string)
    requires forall i :: 0 <= i < |pre| ==> IsCSpace(pre[i])
    requires rest == [] || !IsDecimalDigit(rest[0])
    ensures ScanLL(pre + IntToString(v) + rest) == Some((v, rest))
  {
    var s := pre + IntToString(v) + rest;
    var u := IntToString(v) + rest;
    IntToStringNoSpace(v);
    assert TrimStart(s, IsCSpace) == u by {
      assert s == pre + u;
      assert u[0] == IntToString(v)[0];
      TrimStartSpaces(pre, u);
    }
    ScanSignedNumeral(v, rest);
  }

  /** A numeral before something that is not a digit is read back as its
      value. */
  lemma ScanSignedNumeral(v: int, rest: string)
    requires rest == [] || !IsDecimalDigit(rest[0])
    ensures ScanSigned(IntToString(v) + rest) == Some((v, rest))
  {
    if v < 0 {
      ScanNegative(-v, rest);
    } else {
      ScanNonNegative(v, rest);
    }
  }

  lemma ScanNegative(m: nat, rest: string)
    requires m > 0 && (rest == [] || !IsDecimalDigit(rest[0]))
    ensures ScanSigned(IntToString(-(m as int)) + rest) == Some((-(m as int), rest))
  {
    var d := Digits(m, 10);
    var u := IntToString(-(m as int)) + rest;
    assert u[0] == '-' && Unsigned(u) == d + rest by {
      assert u == ['-'] + (d + rest);
    }
    ScanBody(u, m, rest);
  }

  lemma ScanNonNegative(m: nat, rest: string)
    requires rest == [] || !IsDecimalDigit(rest[0])
    ensures ScanSigned(IntToString(m) + rest) == Some((m, rest))
  {
    var d := Digits(m, 10);
    var u := IntToString(m) + rest;
    assert u[0] != '-' && Unsigned(u) == d + rest by {
      DigitsHead(m);
      assert u == d + rest;
    }
    ScanBody(u, m, rest);
  }

  /** After its sign, the digits of `m` and then something that is not a
      digit. */
  lemma ScanBody(u: string, m: nat, rest: string)
    requires u != [] && Unsigned(u) == Digits(m, 10) + rest
    requires rest == [] || !IsDecimalDigit(rest[0])
    ensures ScanSigned(u) == Some((if u[0] == '-' then -(m as int) else m, rest))
  {
    ScanDigits(m, rest);
  }

  /** Reading `|values|` numbers from `s` gives `values`, and only
      whitespace follows them. */
  predicate ReadsBack(s: string, values: seq<int>)
  {
    var scanned := ScanMany(s, |values|);
    scanned.Some? && scanned.value.0 == values
    && forall i :: 0 <= i < |scanned.value.1| ==> IsCSpace(scanned.value.1[i])
  }

  /** The numbers written one per line, after whitespace and before
      whitespace, read back as themselves. */
  lemma {:induction false} ScanAnswer(pre: string, values: seq<int>, tail: string)
    requires forall i :: 0 <= i < |pre| ==> IsCSpace(pre[i])
    requires forall i :: 0 <= i < |tail| ==> IsCSpace(tail[i])
    ensures ReadsBack(pre + Answer(values) + tail, values)
    decreases |values|
  {
    if values == [] {
      assert pre + Answer(values) + tail == pre + tail;
    } else {
      ScanAnswer("\n", values[1..], tail);
      ScanAnswerStep(pre, values, tail);
    }
  }

  lemma ScanAnswerStep(pre: string, values: seq<int>, tail: string)
    requires forall i :: 0 <= i < |pre| ==> IsCSpace(pre[i])
    requires values != []
    requires ReadsBack("\n" + Answer(values[1..]) + tail, values[1..])
    ensures ReadsBack(pre + Answer(values) + tail, values)
  {
    var v, more := values[0], values[1..];
    var after := "\n" + Answer(more) + tail;
    var s := pre + Answer(values) + tail;
    assert ScanLL(s) == Some((v, after)) by {
      assert s == pre + IntToString(v) + after by {
        Regroup(pre, IntToString(v), "\n" + Answer(more), tail);
      }
      ScanNumeral(pre, v, after);
    }
    ReadsBackCons(s, v, after, more);
    assert [v] + more == values;
  }

  /** A number read, then numbers that read back, read back together. */
  lemma ReadsBackCons(s: string, v: int, after: string, more: seq<int>)
    requires ScanLL(s) == Some((v, after)) && ReadsBack(after, more)
    ensures ReadsBack(s, [v] + more)
  {
    ScanManyStep(s, |more| + 1, v, after);
  }

  /** Reading `k >= 1` numbers is reading one and then `k - 1` more. */
  lemma ScanManyStep(s: string, k: nat, v: int, after: string)
    requires k >= 1 && ScanLL(s) == Some((v, after))
    ensures ScanMany(s, k) == if ScanMany(after, k - 1).None? then None
                              else Some(([v] + ScanMany(after, k - 1).value.0, ScanMany(after, k - 1).value.1))
  {
  }

  lemma Regroup(a: string, b: string, c: string, d: string)
    ensures a + (b + c) + d == a + b + (c + d)
  {
  }

  lemma TrimSpaces(s: string)
    requires forall i :: 0 <= i < |s| ==> IsCSpace(s[i])
    ensures TrimStart(s, IsCSpace) == []
  {
  }

  /** The reference sums, one per line and followed by any whitespace, are
      accepted when the reference is consistent with the input. */
  lemma ExpectedAnswerAccepted(t: int, cases: seq<(int, int)>, correct: seq<int>, tail: string, stdin: string)
    requires t <= |cases| && t <= |correct|
    requires Consistent(cases, correct, 0, Rounds(t))
    requires forall i :: 0 <= i < |tail| ==> IsCSpace(tail[i])
    requires stdin == Answer(correct[..Rounds(t)]) + tail
    ensures Run(t, cases, correct, 0, stdin) == Verdict(true, CorrectAnswer)
  {
    AnswerReadsBack(correct[..Rounds(t)], tail);
    ReadsBackReference(cases, correct, Rounds(t), stdin);
    RunAccepts(t, cases, correct, 0, stdin);
  }

  /** The numbers written one per line, before whitespace, read back as
      themselves. */
  lemma AnswerReadsBack(values: seq<int>, tail: string)
    requires forall i :: 0 <= i < |tail| ==> IsCSpace(tail[i])
    ensures ReadsBack(Answer(values) + tail, values)
  {
    ScanAnswer([], values, tail);
    LeftUnit(Answer(values), tail);
  }

  lemma LeftUnit(a: string, b: string)
    ensures [] + a + b == a + b
  {
  }

  lemma ReadsBackReference(cases: seq<(int, int)>, correct: seq<int>, k: nat, stdin: string)
    requires k <= |cases| && k <= |correct|
    requires Consistent(cases, correct, 0, k)
    requires ReadsBack(stdin, correct[..k])
    ensures ReadsReference(cases, correct, 0, k, stdin)
  {
    TrimSpaces(ScanMany(stdin, k).value.1);
    assert correct[..k] == correct[0..k];
  }
}
