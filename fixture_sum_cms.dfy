/** The Rust judge of the `sum_cms` fixture: it reads the two numbers of the
    input and the contestant's answer, and reports full points for their
    sum, half points for the sum of their absolute values and none
    otherwise. Files are given as a map from path to contents. */
module SumCmsJudge {
  import opened Common
  import opened Text
  import opened FixtureNumbers

  /** How the process ends: a panic (a missing argument or file, a malformed
      input), or `exit(0)` after `report`. */
  datatype Outcome = Panic | Exit(stdout: string, stderr: string, code: int)

  /** The three scores the judge gives. */
  datatype Score = Correct | Partial | Wrong

  /** The points of a score, as `f64`. */
  function Points(s: Score): real
  {
    match s
    case Correct => 1.0
    case Partial => 0.5
    case Wrong => 0.0
  }

  /** The points as Rust's `{}` prints an `f64`. */
  function PointsText(s: Score): string
  {
    match s
    case Correct => "1"
    case Partial => "0.5"
    case Wrong => "0"
  }

  /** The message of a score, a translation key of CMS. */
  function Message(s: Score): string
  {
    match s
    case Correct => "translate:correct"
    case Partial => "translate:partial"
    case Wrong => "translate:wrong"
  }

  function Abs(x: int): nat
  {
    if x < 0 then -x else x
  }

  /** The scoring rule: the sum, else the sum of absolute values; an answer
      that is not a number is wrong. */
  function Verdict(a: int, b: int, answer: Option<int>): Score
  {
    match answer
    case None => Wrong
    case Some(v) =>
      if v == a + b then Correct
      else if v == Abs(a) + Abs(b) then Partial
      else Wrong
  }

  /** `report`: the points on standard output, the message on standard
      error, and exit code 0. */
  function Report(s: Score): (o: Outcome)
    ensures o.Exit? && o.code == 0
  {
    Exit(PointsText(s) + "\n", Message(s) + "\n", 0)
  }

  /** The two numbers of the input: its whitespace-separated tokens must be
      exactly two `i64`. */
  function ReadInput(contents: string): (r: Option<(int, int)>)
    ensures r.Some? <==> ParseAll(SplitWhitespace(contents)).Ok? && |ParseAll(SplitWhitespace(contents)).value| == 2
  {
    match ParseAll(SplitWhitespace(contents))
    case Err(_) => None
    case Ok(numbers) => if |numbers| == 2 then Some((numbers[0], numbers[1])) else None
  }

  /** `main`: arguments are the program, the input, the reference output
      (unused) and the contestant's output. */
  function Judge(args: seq<string>, files: map<string, string>): (o: Outcome)
  {
    if |args| != 4 || args[1] !in files then Panic
    else
      match ReadInput(files[args[1]])
      case None => Panic
      case Some((a, b)) =>
        if args[3] !in files then Panic
        else Report(Verdict(a, b, ParseI64(Strip(files[args[3]], IsCSpace))))
  }

  /** Full points exactly for the sum; half points exactly for an answer
      that is not the sum but the sum of absolute values, which needs a
      negative number; nothing otherwise. */
  lemma VerdictSpec(a: int, b: int, answer: Option<int>)
    ensures Verdict(a, b, answer) == Correct <==> answer == Some(a + b)
    ensures Verdict(a, b, answer) == Partial <==>
              answer.Some? && answer.value != a + b && answer.value == Abs(a) + Abs(b)
    ensures Verdict(a, b, answer) == Partial ==> a < 0 || b < 0
    ensures answer.None? ==> Verdict(a, b, answer) == Wrong
  {
  }

  /** The judge panics exactly when the arguments are not four, a file is
      missing or the input is not two numbers; otherwise it reports the
      verdict of the trimmed answer and exits with 0. */
  lemma JudgeSpec(args: seq<string>, files: map<string, string>)
    ensures Judge(args, files) == Panic <==>
              |args| != 4 || args[1] !in files || ReadInput(files[args[1]]).None? || args[3] !in files
    ensures Judge(args, files).Exit? ==>
              var (a, b) := ReadInput(files[args[1]]).value;
              var s := Verdict(a, b, ParseI64(Strip(files[args[3]], IsCSpace)));
              Judge(args, files) == Exit(PointsText(s) + "\n", Message(s) + "\n", 0)
  {
  }

  /** The printed points are those of the score: 1 for correct, 0.5 for
      partial, 0 for wrong. */
  lemma PointsTextSpec(s: Score)
    ensures PointsText(s) == "1" <==> Points(s) == 1.0
    ensures PointsText(s) == "0.5" <==> Points(s) == 0.5
    ensures PointsText(s) == "0" <==> Points(s) == 0.0
  {
  }

  /** An answer file holding the sum, with any surrounding whitespace, gets
      full points. */
  lemma SumIsCorrect(a: int, b: int, before: string, after: string)
    requires IsI64(a + b)
    requires forall i :: 0 <= i < |before| ==> IsCSpace(before[i])
    requires forall i :: 0 <= i < |after| ==> IsCSpace(after[i])
    ensures Verdict(a, b, ParseI64(Strip(before + IntToString(a + b) + after, IsCSpace))) == Correct
  {
    var n := IntToString(a + b);
    IntToStringNoSpace(a + b);
    StripAround(before, n, after);
    ParseI64OfString(a + b);
  }

  /** Whitespace around a token is what trimming removes. */
  lemma StripAround(before: string, t: string, after: string)
    requires forall i :: 0 <= i < |before| ==> IsCSpace(before[i])
    requires forall i :: 0 <= i < |after| ==> IsCSpace(after[i])
    requires IsToken(t)
    ensures Strip(before + t + after, IsCSpace) == t
  {
    StripAroundEnds(before, t, after);
  }

  /** Only the ends of the token matter to trimming. */
  lemma StripAroundEnds(before: string, t: string, after: string)
    requires forall i :: 0 <= i < |before| ==> IsCSpace(before[i])
    requires forall i :: 0 <= i < |after| ==> IsCSpace(after[i])
    requires t != [] && !IsCSpace(t[0]) && !IsCSpace(t[|t| - 1])
    ensures Strip(before + t + after, IsCSpace) == t
  {
    var u := t + after;
    assert before + t + after == before + u;
    assert u[0] == t[0];
    TrimStartSpaces(before, u);
    TrimEndSpaces(t, after);
  }
}
