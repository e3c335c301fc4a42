/** The Rust solutions of the `max` fixture: the simple solution's `main`,
    which reads a count line and a line of numbers and prints their
    maximum, and the complex solution's `solve` library, which loads the
    same input and writes one number. The standard input is given as its
    lines. */
module RsMax {
  import opened Common
  import opened Text
  import opened MinMax
  import opened FixtureNumbers

  // ---------------------------------------------------------------------------
  // solve_rs: main

  /** The errors `main` returns. */
  datatype MainError =
    | UnexpectedEof      // a line is missing
    | BadCount           // the first line is not a `usize`
    | BadNumber(token: string)
    | CountMismatch      // "got an unexpected number of numbers"
    | NoNumbers          // "cannot compute maximum of 0 numbers"

  /** `main`: the count from the first line, the numbers from the second
      line split on single spaces, then the maximum and a newline. */
  function SolveMain(lines: seq<string>): (r: Result<string, MainError>)
    ensures |lines| == 0 ==> r == Err(UnexpectedEof)
  {
    if |lines| == 0 then Err(UnexpectedEof)
    else
      match ParseUsize(lines[0])
      case None => Err(BadCount)
      case Some(count) =>
        if |lines| == 1 then Err(UnexpectedEof)
        else
          match ParseAll(Split(lines[1], ' '))
          case Err(t) => Err(BadNumber(t))
          case Ok(numbers) =>
            if |numbers| != count then Err(CountMismatch)
            else
              match Max(numbers)
              case Err(_) => Err(NoNumbers)
              case Ok(m) => Result.Ok(IntToString(m) + "\n")
  }

  /** `main` succeeds exactly when both lines are there, the count parses,
      every number parses and there are as many as counted; it then prints
      the maximum of the numbers. */
  lemma SolveMainSpec(lines: seq<string>)
    ensures SolveMain(lines).Ok? <==>
              |lines| >= 2 && ParseUsize(lines[0]).Some? && ParseAll(Split(lines[1], ' ')).Ok?
              && |ParseAll(Split(lines[1], ' ')).value| == ParseUsize(lines[0]).value
    ensures SolveMain(lines).Ok? ==>
              var numbers := ParseAll(Split(lines[1], ' ')).value;
              numbers != [] && SolveMain(lines).value == IntToString(SeqMax(numbers)) + "\n"
    ensures |lines| == 1 && ParseUsize(lines[0]).Some? ==> SolveMain(lines) == Err(UnexpectedEof)
  {
  }

  /** The error for an empty list is never returned: splitting a line gives
      at least one token, so an empty line fails to parse instead. */
  lemma NoNumbersUnreachable(lines: seq<string>)
    ensures SolveMain(lines) != Err(NoNumbers)
  {
    if |lines| >= 2 {
      var tokens := Split(lines[1], ' ');
      assert |tokens| >= 1;
    }
  }

  /** A well-formed input: the count of a non-empty list of `i64`, then
      the numbers separated by single spaces, prints their maximum. */
  lemma SolveMainWellFormed(values: seq<int>, rest: seq<string>)
    requires values != [] && |values| <= UsizeMax
    requires forall i :: 0 <= i < |values| ==> IsI64(values[i])
    ensures SolveMain([IntToString(|values|), Join(Numerals(values), ' ')] + rest)
            == Result.Ok(IntToString(SeqMax(values)) + "\n")
  {
    var line0, line1 := IntToString(|values|), Join(Numerals(values), ' ');
    ParseUsizeOfString(|values|);
    assert ParseAll(Split(line1, ' ')) == Result.Ok(values) by {
      forall i | 0 <= i < |values| ensures ' ' !in Numerals(values)[i] {
        IntToStringNoSpace(values[i]);
      }
      SplitJoin(Numerals(values), ' ');
      ParseAllNumerals(values);
    }
    SolveMainLines(line0, line1, rest);
  }

  lemma SolveMainLines(line0: string, line1: string, rest: seq<string>)
    ensures var lines := [line0, line1] + rest;
            SolveMain(lines) == match ParseUsize(line0)
              case None => Err(BadCount)
              case Some(count) =>
                match ParseAll(Split(line1, ' '))
                case Err(t) => Err(BadNumber(t))
                case Ok(numbers) =>
                  if |numbers| != count then Err(CountMismatch)
                  else match Max(numbers)
                    case Err(_) => Err(NoNumbers)
                    case Ok(m) => Result.Ok(IntToString(m) + "\n")
  {
    var lines := [line0, line1] + rest;
    assert |lines| >= 2 && lines[0] == line0 && lines[1] == line1;
  }

  // ---------------------------------------------------------------------------
  // solve_rs_complex: the solve library

  /** The errors of `load_input`. */
  datatype LoadError =
    | Eof                          // a line is missing
    | TokenCount                   // the count line does not hold one token
    | BadToken(token: string)
    | WrongCount(expected: nat, got: nat)

  /** The message of a count that does not match. */
  function WrongCountMessage(expected: nat, got: nat): string
  {
    "expected " + IntToString(expected) + " numbers, got " + IntToString(got)
  }

  /** The count read from the first line, as a one-element tuple. */
  function ReadCount(line: string): (r: Result<nat, LoadError>)
    ensures r.Ok? <==> |SplitWhitespace(line)| == 1 && ParseUsize(SplitWhitespace(line)[0]).Some?
    ensures r.Ok? ==> ParseUsize(SplitWhitespace(line)[0]) == Some(r.value)
  {
    var tokens := SplitWhitespace(line);
    if |tokens| != 1 then Err(TokenCount)
    else
      match ParseUsize(tokens[0])
      case None => Err(BadToken(tokens[0]))
      case Some(count) => Result.Ok(count)
  }

  /** `load_input`: a line holding the count, then a line holding that many
      numbers, each line split on whitespace. */
  function LoadInput(lines: seq<string>): (r: Result<seq<int>, LoadError>)
    ensures |lines| == 0 ==> r == Err(Eof)
  {
    if |lines| == 0 then Err(Eof)
    else
      match ReadCount(lines[0])
      case Err(e) => Err(e)
      case Ok(count) =>
        if |lines| == 1 then Err(Eof)
        else
          match ParseAll(SplitWhitespace(lines[1]))
          case Err(t) => Err(BadToken(t))
          case Ok(values) =>
            if |values| != count then Err(WrongCount(count, |values|))
            else Result.Ok(values)
  }

  /** `load_input` succeeds exactly when the count line holds one count,
      the values line holds only `i64` numbers, and there are as many as
      counted; the values are then returned as they were, in order. */
  lemma LoadInputSpec(lines: seq<string>)
    ensures LoadInput(lines).Ok? <==>
              |lines| >= 2 && ReadCount(lines[0]).Ok? && ParseAll(SplitWhitespace(lines[1])).Ok?
              && |ParseAll(SplitWhitespace(lines[1])).value| == ReadCount(lines[0]).value
    ensures LoadInput(lines).Ok? ==>
              var tokens := SplitWhitespace(lines[1]);
              var values := LoadInput(lines).value;
              |values| == |tokens| && forall i :: 0 <= i < |values| ==> Some(values[i]) == ParseI64(tokens[i])
    ensures LoadInput(lines).Err? && LoadInput(lines).error.WrongCount? ==>
              LoadInput(lines).error.expected != LoadInput(lines).error.got
  {
  }

  /** Loading the count and the numerals of any list of `i64`, the empty
      one included, gives back the list. */
  lemma LoadInputWellFormed(values: seq<int>, rest: seq<string>)
    requires |values| <= UsizeMax
    requires forall i :: 0 <= i < |values| ==> IsI64(values[i])
    ensures LoadInput([IntToString(|values|), Join(Numerals(values), ' ')] + rest) == Result.Ok(values)
  {
    ReadCountOfString(|values|);
    ParseAllJoined(values);
    LoadInputLines(IntToString(|values|), Join(Numerals(values), ' '), rest);
  }

  lemma ReadCountOfString(n: nat)
    requires n <= UsizeMax
    ensures ReadCount(IntToString(n)) == Result.Ok(n)
  {
    var line := IntToString(n);
    IntToStringNoSpace(n);
    TokenWhole(line, []);
    assert line + [] == line;
    ParseUsizeOfString(n);
  }

  lemma ParseAllJoined(values: seq<int>)
    requires forall i :: 0 <= i < |values| ==> IsI64(values[i])
    ensures ParseAll(SplitWhitespace(Join(Numerals(values), ' '))) == Result.Ok(values)
  {
    NumeralsAreTokens(values);
    SplitWhitespaceJoin(Numerals(values));
    ParseAllNumerals(values);
  }

  lemma LoadInputLines(line0: string, line1: string, rest: seq<string>)
    ensures var lines := [line0, line1] + rest;
            LoadInput(lines) == match ReadCount(line0)
              case Err(e) => Err(e)
              case Ok(count) =>
                match ParseAll(SplitWhitespace(line1))
                case Err(t) => Err(BadToken(t))
                case Ok(values) => if |values| != count then Err(WrongCount(count, |values|)) else Result.Ok(values)
  {
    var lines := [line0, line1] + rest;
    assert |lines| >= 2 && lines[0] == line0 && lines[1] == line1;
  }

  /** `write_output`: the number in decimal and a newline. */
  function WriteOutput(value: int): string
  {
    IntToString(value) + "\n"
  }

  /** What `write_output` writes is one line that reads back as the value. */
  lemma WriteOutputReadsBack(value: int)
    requires IsI64(value)
    ensures var out := WriteOutput(value);
            out[|out| - 1] == '\n' && ParseI64(out[..|out| - 1]) == Some(value)
            && forall i :: 0 <= i < |out| - 1 ==> out[i] != '\n'
  {
    var out := WriteOutput(value);
    assert out[..|out| - 1] == IntToString(value);
    ParseI64OfString(value);
    IntToStringNoSpace(value);
  }
}
