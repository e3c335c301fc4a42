/** The value types of the task configuration (`pisek/config/config_types.py`):
    the string enumerations a config value may take, test points, and the
    program types with their build names. */
module ConfigTypes {
  import opened Common
  import opened Text

  // ---------------------------------------------------------------------------
  // String enumerations: each member stands for exactly one string

  datatype TaskType = Batch | Interactive

  function TaskTypeValue(t: TaskType): string
  {
    match t
    case Batch => "batch"
    case Interactive => "interactive"
  }

  function ParseTaskType(s: string): (r: Option<TaskType>)
    ensures r.Some? ==> TaskTypeValue(r.value) == s
    ensures forall t :: TaskTypeValue(t) == s ==> r == Some(t)
  {
    if s == "batch" then Some(Batch)
    else if s == "interactive" then Some(Interactive)
    else None
  }

  datatype OutCheck = Diff | Tokens | Shuffle | Judge

  function OutCheckValue(c: OutCheck): string
  {
    match c
    case Diff => "diff"
    case Tokens => "tokens"
    case Shuffle => "shuffle"
    case Judge => "judge"
  }

  function ParseOutCheck(s: string): (r: Option<OutCheck>)
    ensures r.Some? ==> OutCheckValue(r.value) == s
    ensures forall c :: OutCheckValue(c) == s ==> r == Some(c)
  {
    if s == "diff" then Some(Diff)
    else if s == "tokens" then Some(Tokens)
    else if s == "shuffle" then Some(Shuffle)
    else if s == "judge" then Some(Judge)
    else None
  }

  datatype GenType = OpendataV1Gen | CmsOld | PisekV1

  function GenTypeValue(g: GenType): string
  {
    match g
    case OpendataV1Gen => "opendata-v1"
    case CmsOld => "cms-old"
    case PisekV1 => "pisek-v1"
  }

  function ParseGenType(s: string): (r: Option<GenType>)
    ensures r.Some? ==> GenTypeValue(r.value) == s
    ensures forall g :: GenTypeValue(g) == s ==> r == Some(g)
  {
    if s == "opendata-v1" then Some(OpendataV1Gen)
    else if s == "cms-old" then Some(CmsOld)
    else if s == "pisek-v1" then Some(PisekV1)
    else None
  }

  datatype ValidatorType = Simple0 | Simple42

  function ValidatorTypeValue(v: ValidatorType): string
  {
    match v
    case Simple0 => "simple-0"
    case Simple42 => "simple-42"
  }

  function ParseValidatorType(s: string): (r: Option<ValidatorType>)
    ensures r.Some? ==> ValidatorTypeValue(r.value) == s
    ensures forall v :: ValidatorTypeValue(v) == s ==> r == Some(v)
  {
    if s == "simple-0" then Some(Simple0)
    else if s == "simple-42" then Some(Simple42)
    else None
  }

  datatype JudgeType = CmsBatch | CmsCommunication | OpendataV1

  function JudgeTypeValue(j: JudgeType): string
  {
    match j
    case CmsBatch => "cms-batch"
    case CmsCommunication => "cms-communication"
    case OpendataV1 => "opendata-v1"
  }

  function ParseJudgeType(s: string): (r: Option<JudgeType>)
    ensures r.Some? ==> JudgeTypeValue(r.value) == s
    ensures forall j :: JudgeTypeValue(j) == s ==> r == Some(j)
  {
    if s == "cms-batch" then Some(CmsBatch)
    else if s == "cms-communication" then Some(CmsCommunication)
    else if s == "opendata-v1" then Some(OpendataV1)
    else None
  }

  datatype ShuffleMode = Lines | Words | LinesWords | ShuffleTokens

  function ShuffleModeValue(m: ShuffleMode): string
  {
    match m
    case Lines => "lines"
    case Words => "words"
    case LinesWords => "lines_words"
    case ShuffleTokens => "tokens"
  }

  function ParseShuffleMode(s: string): (r: Option<ShuffleMode>)
    ensures r.Some? ==> ShuffleModeValue(r.value) == s
    ensures forall m :: ShuffleModeValue(m) == s ==> r == Some(m)
  {
    if s == "lines" then Some(Lines)
    else if s == "words" then Some(Words)
    else if s == "lines_words" then Some(LinesWords)
    else if s == "tokens" then Some(ShuffleTokens)
    else None
  }

  datatype DataFormat = Text | StrictText | Binary

  function DataFormatValue(f: DataFormat): string
  {
    match f
    case Text => "text"
    case StrictText => "strict-text"
    case Binary => "binary"
  }

  function ParseDataFormat(s: string): (r: Option<DataFormat>)
    ensures r.Some? ==> DataFormatValue(r.value) == s
    ensures forall f :: DataFormatValue(f) == s ==> r == Some(f)
  {
    if s == "text" then Some(Text)
    else if s == "strict-text" then Some(StrictText)
    else if s == "binary" then Some(Binary)
    else None
  }

  datatype BuildStrategyName = Python | Shell | C | Cpp | Pascal | Make | Cargo | Auto

  function BuildStrategyValue(b: BuildStrategyName): string
  {
    match b
    case Python => "python"
    case Shell => "shell"
    case C => "c"
    case Cpp => "cpp"
    case Pascal => "pascal"
    case Make => "make"
    case Cargo => "cargo"
    case Auto => "auto"
  }

  function ParseBuildStrategy(s: string): (r: Option<BuildStrategyName>)
    ensures r.Some? ==> BuildStrategyValue(r.value) == s
    ensures forall b :: BuildStrategyValue(b) == s ==> r == Some(b)
  {
    if s == "python" then Some(Python)
    else if s == "shell" then Some(Shell)
    else if s == "c" then Some(C)
    else if s == "cpp" then Some(Cpp)
    else if s == "pascal" then Some(Pascal)
    else if s == "make" then Some(Make)
    else if s == "cargo" then Some(Cargo)
    else if s == "auto" then Some(Auto)
    else None
  }

  datatype CmsFeedbackLevel = Full | Restricted

  function CmsFeedbackLevelValue(l: CmsFeedbackLevel): string
  {
    match l
    case Full => "full"
    case Restricted => "restricted"
  }

  function ParseCmsFeedbackLevel(s: string): (r: Option<CmsFeedbackLevel>)
    ensures r.Some? ==> CmsFeedbackLevelValue(r.value) == s
    ensures forall l :: CmsFeedbackLevelValue(l) == s ==> r == Some(l)
  {
    if s == "full" then Some(Full)
    else if s == "restricted" then Some(Restricted)
    else None
  }

  datatype CmsScoreMode = Max | MaxSubtask | MaxTokenedLast

  function CmsScoreModeValue(m: CmsScoreMode): string
  {
    match m
    case Max => "max"
    case MaxSubtask => "max_subtask"
    case MaxTokenedLast => "max_tokened_last"
  }

  function ParseCmsScoreMode(s: string): (r: Option<CmsScoreMode>)
    ensures r.Some? ==> CmsScoreModeValue(r.value) == s
    ensures forall m :: CmsScoreModeValue(m) == s ==> r == Some(m)
  {
    if s == "max" then Some(Max)
    else if s == "max_subtask" then Some(MaxSubtask)
    else if s == "max_tokened_last" then Some(MaxTokenedLast)
    else None
  }

  // ---------------------------------------------------------------------------
  // Program types

  datatype ProgramType = Gen | Validator | PrimarySolution | SecondarySolution | JudgeProgram

  /** The member's name, which is also its value. */
  function ProgramTypeName(p: ProgramType): string
  {
    match p
    case Gen => "gen"
    case Validator => "validator"
    case PrimarySolution => "primary_solution"
    case SecondarySolution => "secondary_solution"
    case JudgeProgram => "judge"
  }

  function ParseProgramType(s: string): (r: Option<ProgramType>)
    ensures r.Some? ==> ProgramTypeName(r.value) == s
    ensures forall p :: ProgramTypeName(p) == s ==> r == Some(p)
  {
    if s == "gen" then Some(Gen)
    else if s == "validator" then Some(Validator)
    else if s == "primary_solution" then Some(PrimarySolution)
    else if s == "secondary_solution" then Some(SecondarySolution)
    else if s == "judge" then Some(JudgeProgram)
    else None
  }

  predicate IsSolution(p: ProgramType)
  {
    p == PrimarySolution || p == SecondarySolution
  }

  /** `build_name`: both kinds of solution build as "solution", every
      other program under its own name. */
  function BuildName(p: ProgramType): (r: string)
    ensures r == "solution" <==> IsSolution(p)
    ensures !IsSolution(p) ==> r == ProgramTypeName(p)
  {
    if IsSolution(p) then "solution" else ProgramTypeName(p)
  }

  /** Programs other than solutions keep apart: their build names differ
      from each other and from "solution". */
  lemma BuildNamesDistinct(p: ProgramType, q: ProgramType)
    requires !IsSolution(p) && p != q
    ensures BuildName(p) != BuildName(q)
  {
  }

  // ---------------------------------------------------------------------------
  // Test points

  datatype TestPoints = Unscored | Points(n: nat)

  /** The error `test_points_parsing`. */
  datatype PointsError = TestPointsParsing

  /** Two underscores in a row. */
  predicate DoubleUnderscore(s: string)
  {
    exists i :: 0 <= i < |s| - 1 && s[i] == '_' && s[i + 1] == '_'
  }

  function RemoveUnderscores(s: string): (r: string)
    ensures '_' !in s ==> r == s
  {
    if s == [] then [] else (if s[0] == '_' then [] else [s[0]]) + RemoveUnderscores(s[1..])
  }

  /** A run of decimal digits, with single underscores allowed between
      digits. */
  function DecimalLiteral(s: string): Option<nat>
  {
    if s == [] || s[0] == '_' || s[|s| - 1] == '_' || DoubleUnderscore(s) then None
    else ParseDigits(RemoveUnderscores(s), 10)
  }

  /** Python's `int()` on a string, for ASCII input: surrounding
      whitespace, then a signed literal. */
  function PyInt(s: string): Option<int>
  {
    SignedLiteral(Strip(s, IsPySpace))
  }

  /** An optional sign, then a decimal literal. */
  function SignedLiteral(t: string): Option<int>
  {
    if t == [] then None
    else
      var negative := t[0] == '-';
      var body := if t[0] == '-' || t[0] == '+' then t[1..] else t;
      match DecimalLiteral(body)
      case None => None
      case Some(v) => Some(if negative then -(v as int) else v as int)
  }

  /** `validate_test_points`. */
  function ValidateTestPoints(points: string): (r: Result<TestPoints, PointsError>)
    ensures points == "unscored" ==> r == Result.Ok(Unscored)
    ensures points != "unscored" ==> (r.Ok? <==> PyInt(points).Some? && PyInt(points).value >= 0)
    ensures points != "unscored" && r.Ok? ==> r == Result.Ok(Points(PyInt(points).value))
  {
    if points == "unscored" then Result.Ok(Unscored)
    else match PyInt(points)
      case Some(p) => if p >= 0 then Result.Ok(Points(p)) else Err(TestPointsParsing)
      case None => Err(TestPointsParsing)
  }

  lemma {:induction false} DigitsAreDecimal(n: nat)
    ensures forall i :: 0 <= i < |Digits(n, 10)| ==> '0' <= Digits(n, 10)[i] <= '9'
    decreases n
  {
    if n >= 10 {
      DigitsAreDecimal(n / 10);
    }
  }

  lemma NoSpaceStrip(s: string)
    requires s != [] && !IsPySpace(s[0]) && !IsPySpace(s[|s| - 1])
    ensures Strip(s, IsPySpace) == s
  {
  }

  /** A numeral is a decimal literal of its own value. */
  lemma DecimalLiteralOfDigits(n: nat)
    ensures DecimalLiteral(Digits(n, 10)) == Some(n)
  {
    var s := Digits(n, 10);
    DigitsAreDecimal(n);
    assert !DoubleUnderscore(s);
    assert '_' !in s;
    ParseDigitsOfDigits(n, 10);
  }

  /** `int()` on a string without surrounding whitespace. */
  lemma PyIntStripped(t: string)
    requires t != [] && !IsPySpace(t[0]) && !IsPySpace(t[|t| - 1])
    ensures PyInt(t) == SignedLiteral(t)
  {
    NoSpaceStrip(t);
  }

  /** `int()` reads a number written out back. */
  lemma PyIntOfNumeral(i: int)
    ensures PyInt(IntToString(i)) == Some(i)
  {
    if i < 0 {
      var n: nat := -i;
      assert IntToString(i) == "-" + Digits(n, 10);
      PyIntOfNegative(n);
    } else {
      assert IntToString(i) == Digits(i, 10);
      PyIntOfNatural(i);
    }
  }

  /** A numeral starts and ends with a decimal digit. */
  lemma DigitsEnds(n: nat)
    ensures var t := Digits(n, 10); '0' <= t[0] <= '9' && '0' <= t[|t| - 1] <= '9'
  {
    DigitsAreDecimal(n);
  }

  lemma PyIntOfNatural(n: nat)
    ensures PyInt(Digits(n, 10)) == Some(n)
  {
    var t := Digits(n, 10);
    DigitsEnds(n);
    DecimalLiteralOfDigits(n);
    PyIntStripped(t);
  }

  lemma PyIntOfNegative(n: nat)
    requires n > 0
    ensures PyInt("-" + Digits(n, 10)) == Some(-(n as int))
  {
    var s := Digits(n, 10);
    DigitsEnds(n);
    DecimalLiteralOfDigits(n);
    NegativeLiteral(s, n);
    var t := "-" + s;
    assert t[|t| - 1] == s[|s| - 1];
    PyIntStripped(t);
  }

  /** A minus sign before a decimal literal negates its value. */
  lemma NegativeLiteral(s: string, v: nat)
    requires DecimalLiteral(s) == Some(v)
    ensures SignedLiteral("-" + s) == Some(-(v as int))
  {
    var t := "-" + s;
    assert t[0] == '-' && t[1..] == s;
  }

  /** Every number written out validates to itself. */
  lemma ValidatePointsOfNumeral(n: nat)
    ensures ValidateTestPoints(IntToString(n)) == Result.Ok(Points(n))
  {
    PyIntOfNumeral(n);
    DigitsAreDecimal(n);
    assert IntToString(n) != "unscored" by {
      assert IntToString(n)[0] != 'u';
    }
  }

  /** A negative number is rejected. */
  lemma NegativePointsRejected(n: nat)
    requires n > 0
    ensures ValidateTestPoints(IntToString(-(n as int))).Err?
  {
    PyIntOfNumeral(-(n as int));
    assert IntToString(-(n as int)) != "unscored" by {
      assert IntToString(-(n as int))[0] != 'u';
    }
  }
}
