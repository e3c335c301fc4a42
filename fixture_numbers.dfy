/** What the example solutions and judges of the task fixtures share: Rust's
    integer parsing (`i64::from_str`, `usize::from_str`), splitting on
    whitespace, and the decimal numerals they print. */
module FixtureNumbers {
  import opened Common
  import opened Text

  const I64Min := -0x8000_0000_0000_0000
  const I64Max := 0x7fff_ffff_ffff_ffff
  const UsizeMax := 0xffff_ffff_ffff_ffff

  predicate IsI64(v: int)
  {
    I64Min <= v <= I64Max
  }

  /** `i64::from_str`: an optional sign, then at least one decimal digit,
      the value in the range of `i64`. */
  function ParseI64(s: string): (r: Option<int>)
    ensures r.Some? ==> IsI64(r.value)
  {
    var neg := s != [] && s[0] == '-';
    var digits := if s != [] && (s[0] == '-' || s[0] == '+') then s[1..] else s;
    match ParseDigits(digits, 10)
    case None => None
    case Some(m) =>
      var v: int := if neg then -(m as int) else m;
      if IsI64(v) then Some(v) else None
  }

  /** `usize::from_str` on a 64-bit target: an optional `+`, then at least
      one decimal digit, the value at most `usize::MAX`. */
  function ParseUsize(s: string): (r: Option<nat>)
    ensures r.Some? ==> r.value <= UsizeMax
  {
    var digits := if s != [] && s[0] == '+' then s[1..] else s;
    match ParseDigits(digits, 10)
    case None => None
    case Some(m) => if m <= UsizeMax then Some(m) else None
  }

  /** A numeral never starts with a sign. */
  lemma {:induction false} DigitsHead(n: nat)
    ensures Digits(n, 10)[0] != '-' && Digits(n, 10)[0] != '+'
    decreases n
  {
    if n < 10 {
      DigitValueOfDigitChar(n);
    } else {
      DigitsHead(n / 10);
    }
  }

  /** Printing an `i64` and parsing it back gives the number. */
  lemma ParseI64OfString(v: int)
    requires IsI64(v)
    ensures ParseI64(IntToString(v)) == Some(v)
  {
    if v < 0 {
      ParseNegative(v);
    } else {
      ParseNonNegative(v);
    }
  }

  lemma ParseNegative(v: int)
    requires I64Min <= v < 0
    ensures ParseI64(IntToString(v)) == Some(v)
  {
    var s, d := IntToString(v), Digits(-v, 10);
    assert s == "-" + d;
    assert s != [] && s[0] == '-' && s[1..] == d;
    ParseDigitsOfDigits(-v, 10);
    assert ParseDigits(s[1..], 10) == Some(-v);
  }

  lemma ParseNonNegative(v: int)
    requires 0 <= v <= I64Max
    ensures ParseI64(IntToString(v)) == Some(v)
  {
    var s := IntToString(v);
    assert s == Digits(v, 10);
    DigitsHead(v);
    ParseDigitsOfDigits(v, 10);
    assert ParseDigits(s, 10) == Some(v);
  }

  /** Printing a count and parsing it back as a `usize` gives the count. */
  lemma ParseUsizeOfString(n: nat)
    requires n <= UsizeMax
    ensures ParseUsize(IntToString(n)) == Some(n)
  {
    DigitsHead(n);
    ParseDigitsOfDigits(n, 10);
  }

  /** No numeral holds a newline or whitespace. */
  lemma {:induction false} DigitsNoSpace(n: nat)
    ensures forall i :: 0 <= i < |Digits(n, 10)| ==> !IsCSpace(Digits(n, 10)[i])
    decreases n
  {
    if n < 10 {
      DigitValueOfDigitChar(n);
    } else {
      DigitsNoSpace(n / 10);
      DigitValueOfDigitChar(n % 10);
    }
  }

  lemma IntToStringNoSpace(v: int)
    ensures IntToString(v) != []
    ensures forall i :: 0 <= i < |IntToString(v)| ==> !IsCSpace(IntToString(v)[i])
  {
    if v < 0 {
      DigitsNoSpace(-v);
      ConsToken('-', Digits(-v, 10));
    } else {
      DigitsNoSpace(v);
    }
  }

  lemma ConsToken(c: char, t: string)
    requires !IsCSpace(c) && forall i :: 0 <= i < |t| ==> !IsCSpace(t[i])
    ensures forall i :: 0 <= i < |[c] + t| ==> !IsCSpace(([c] + t)[i])
  {
  }

  // ---------------------------------------------------------------------------
  // Tokens

  /** The number of leading characters that are not whitespace. */
  function TokenLength(s: string): (n: nat)
    ensures n <= |s|
    ensures forall i :: 0 <= i < n ==> !IsCSpace(s[i])
    ensures n < |s| ==> IsCSpace(s[n])
  {
    if s == [] || IsCSpace(s[0]) then 0 else 1 + TokenLength(s[1..])
  }

  /** Rust's `split_whitespace`: the maximal runs of characters that are not
      whitespace, in order. */
  function SplitWhitespace(s: string): (r: seq<string>)
    ensures forall i :: 0 <= i < |r| ==> IsToken(r[i])
    decreases |s|
  {
    if s == [] then []
    else if IsCSpace(s[0]) then SplitWhitespace(s[1..])
    else
      var n := TokenLength(s);
      [s[..n]] + SplitWhitespace(s[n..])
  }

  /** A non-empty run of characters that are not whitespace. */
  predicate IsToken(t: string)
  {
    t != [] && forall i :: 0 <= i < |t| ==> !IsCSpace(t[i])
  }

  /** Splitting tokens joined by single spaces gives back the tokens. */
  lemma {:induction false} SplitWhitespaceJoin(parts: seq<string>)
    requires forall i :: 0 <= i < |parts| ==> IsToken(parts[i])
    ensures SplitWhitespace(Join(parts, ' ')) == parts
  {
    if |parts| == 1 {
      TokenWhole(parts[0], []);
      assert parts[0] + [] == parts[0];
    } else if |parts| > 1 {
      var rest := Join(parts[1..], ' ');
      SplitWhitespaceJoin(parts[1..]);
      var s := Join(parts, ' ');
      assert s == parts[0] + ([' '] + rest);
      TokenWhole(parts[0], [' '] + rest);
      assert ([' '] + rest)[1..] == rest;
      assert parts == [parts[0]] + parts[1..];
    }
  }

  /** A token followed by whitespace or nothing is split off whole. */
  lemma TokenWhole(t: string, rest: string)
    requires IsToken(t) && (rest == [] || IsCSpace(rest[0]))
    ensures SplitWhitespace(t + rest) == [t] + SplitWhitespace(rest)
  {
    var s := t + rest;
    TokenLengthConcat(t, rest);
    assert s[..|t|] == t && s[|t|..] == rest;
  }

  lemma {:induction false} TokenLengthConcat(t: string, rest: string)
    requires forall i :: 0 <= i < |t| ==> !IsCSpace(t[i])
    requires rest == [] || IsCSpace(rest[0])
    ensures TokenLength(t + rest) == |t|
  {
    if t != [] {
      assert (t + rest)[1..] == t[1..] + rest;
      TokenLengthConcat(t[1..], rest);
    } else {
      assert t + rest == rest;
    }
  }

  /** The numerals of `values`, in order. */
  function Numerals(values: seq<int>): (r: seq<string>)
    ensures |r| == |values|
    ensures forall i :: 0 <= i < |r| ==> r[i] == IntToString(values[i])
  {
    if values == [] then [] else [IntToString(values[0])] + Numerals(values[1..])
  }

  /** Numerals are tokens. */
  lemma NumeralsAreTokens(values: seq<int>)
    ensures forall i :: 0 <= i < |values| ==> IsToken(Numerals(values)[i])
  {
    forall i | 0 <= i < |values| ensures IsToken(Numerals(values)[i]) {
      IntToStringNoSpace(values[i]);
    }
  }

  // ---------------------------------------------------------------------------
  // Parsing every token

  /** `collect::<Result<Vec<i64>, _>>()` over `parse`: every token as an
      `i64`, or the first token that is not one. */
  function ParseAll(tokens: seq<string>): (r: Result<seq<int>, string>)
    ensures r.Ok? <==> forall i :: 0 <= i < |tokens| ==> ParseI64(tokens[i]).Some?
    ensures r.Ok? ==> |r.value| == |tokens| && forall i :: 0 <= i < |tokens| ==> Some(r.value[i]) == ParseI64(tokens[i])
    ensures r.Err? ==> r.error in tokens && ParseI64(r.error).None?
  {
    if tokens == [] then Result.Ok([])
    else
      match ParseI64(tokens[0])
      case None => Err(tokens[0])
      case Some(v) =>
        match ParseAll(tokens[1..])
        case Err(t) => Err(t)
        case Ok(vs) => Result.Ok([v] + vs)
  }

  /** The numerals of `i64` values parse back to the values. */
  lemma {:induction false} ParseAllNumerals(values: seq<int>)
    requires forall i :: 0 <= i < |values| ==> IsI64(values[i])
    ensures ParseAll(Numerals(values)) == Result.Ok(values)
  {
    if values != [] {
      ParseI64OfString(values[0]);
      assert Numerals(values)[1..] == Numerals(values[1..]);
      ParseAllNumerals(values[1..]);
      assert [values[0]] + values[1..] == values;
    }
  }

  // ---------------------------------------------------------------------------
  // Trimming whitespace around a token

  /** Leading whitespace is what trimming the start removes. */
  lemma {:induction false} TrimStartSpaces(before: string, rest: string)
    requires forall i :: 0 <= i < |before| ==> IsCSpace(before[i])
    requires rest != [] && !IsCSpace(rest[0])
    ensures TrimStart(before + rest, IsCSpace) == rest
  {
    if before != [] {
      assert (before + rest)[1..] == before[1..] + rest;
      TrimStartSpaces(before[1..], rest);
    } else {
      assert before + rest == rest;
    }
  }

  /** Trailing whitespace is what trimming the end removes. */
  lemma {:induction false} TrimEndSpaces(t: string, after: string)
    requires forall i :: 0 <= i < |after| ==> IsCSpace(after[i])
    requires t != [] && !IsCSpace(t[|t| - 1])
    ensures TrimEnd(t + after, IsCSpace) == t
  {
    if after != [] {
      var s := t + after;
      assert s[..|s| - 1] == t + after[..|after| - 1];
      TrimEndSpaces(t, after[..|after| - 1]);
    } else {
      assert t + after == t;
    }
  }
}
