/** String helpers shared by the models: splitting and joining on a
    separator, trimming whitespace, ASCII case mapping, decimal and
    hexadecimal numerals, and code-point (Python) string ordering with the
    stable sort built on it. Strings are sequences of Unicode scalar values. */
module Text {
  import opened Common

  // ---------------------------------------------------------------------------
  // Searching, splitting, joining

  /** Position of the first occurrence of `c` in `s`. */
  function IndexOf(s: string, c: char): (i: nat)
    requires c in s
    ensures i < |s| && s[i] == c
    ensures forall j :: 0 <= j < i ==> s[j] != c
  {
    if s[0] == c then 0 else IndexOf(s[1..], c) + 1
  }

  /** Python's `s.split(sep)` for a one-character separator: the pieces
      between consecutive separators, never an empty list. */
  function Split(s: string, sep: char): (r: seq<string>)
    ensures |r| >= 1
    ensures forall i :: 0 <= i < |r| ==> sep !in r[i]
    decreases |s|
  {
    if sep !in s then [s]
    else
      var i := IndexOf(s, sep);
      [s[..i]] + Split(s[i + 1..], sep)
  }

  /** Python's `sep.join(parts)`. */
  function Join(parts: seq<string>, sep: char): string
  {
    if |parts| == 0 then ""
    else if |parts| == 1 then parts[0]
    else parts[0] + [sep] + Join(parts[1..], sep)
  }

  /** The first separator of `a + [sep] + b`, for a separator-free `a`. */
  lemma FirstSeparator(a: string, sep: char, b: string)
    requires sep !in a
    ensures sep in a + [sep] + b
    ensures IndexOf(a + [sep] + b, sep) == |a|
    ensures (a + [sep] + b)[..|a|] == a && (a + [sep] + b)[|a| + 1..] == b
  {
    var s := a + [sep] + b;
    assert s[|a|] == sep;
    forall j | 0 <= j < |a| ensures s[j] != sep {
      assert s[j] == a[j];
    }
  }

  /** Splitting at a first separator gives the piece before it, then the
      split of the rest. */
  lemma SplitFirst(a: string, sep: char, b: string)
    requires sep !in a
    ensures Split(a + [sep] + b, sep) == [a] + Split(b, sep)
  {
    FirstSeparator(a, sep, b);
  }

  /** Splitting a join of separator-free pieces gives back the pieces. */
  lemma {:induction false} SplitJoin(parts: seq<string>, sep: char)
    requires |parts| >= 1
    requires forall i :: 0 <= i < |parts| ==> sep !in parts[i]
    ensures Split(Join(parts, sep), sep) == parts
  {
    if |parts| > 1 {
      var rest := Join(parts[1..], sep);
      var s := Join(parts, sep);
      assert s == parts[0] + [sep] + rest;
      assert Split(s, sep) == [parts[0]] + Split(rest, sep) by {
        FirstSeparator(parts[0], sep, rest);
      }
      SplitJoin(parts[1..], sep);
      assert parts == [parts[0]] + parts[1..];
    }
  }

  /** Splitting `a`, a separator and a separator-free `c` gives the pieces
      of `a` and then `c`. */
  lemma {:induction false} SplitSnoc(a: string, sep: char, c: string)
    requires sep !in c
    ensures Split(a + [sep] + c, sep) == Split(a, sep) + [c]
    decreases |a|
  {
    var s := a + [sep] + c;
    if sep !in a {
      FirstSeparator(a, sep, c);
      assert Split(c, sep) == [c];
    } else {
      var i := IndexOf(a, sep);
      var pre, post := a[..i], a[i + 1..];
      assert sep !in pre;
      assert s == pre + [sep] + (post + [sep] + c) by {
        assert a == pre + [sep] + post;
      }
      SplitFirst(pre, sep, post + [sep] + c);
      SplitSnoc(post, sep, c);
      assert Split(a, sep) == [pre] + Split(post, sep);
      assert [pre] + (Split(post, sep) + [c]) == [pre] + Split(post, sep) + [c];
    }
  }

  /** Joining one more piece appends a separator and the piece. */
  lemma {:induction false} JoinSnoc(parts: seq<string>, sep: char, c: string)
    ensures Join(parts + [c], sep) == if parts == [] then c else Join(parts, sep) + [sep] + c
    decreases |parts|
  {
    if |parts| > 1 {
      assert (parts + [c])[1..] == parts[1..] + [c];
      JoinSnoc(parts[1..], sep, c);
    } else if |parts| == 1 {
      assert (parts + [c])[1..] == [c];
    }
  }

  /** `t` occurs in `s` as a contiguous piece (Python's `t in s`). */
  predicate Contains(s: string, t: string)
  {
    if |t| > |s| then false else s[..|t|] == t || Contains(s[1..], t)
  }

  /** `s.replace(pat, rep)` for a non-empty `pat`: every occurrence, left
      to right, without overlaps. */
  function ReplaceAll(s: string, pat: string, rep: string): (r: string)
    requires pat != []
    ensures !Contains(s, pat) ==> r == s
    decreases |s|
  {
    if |s| < |pat| then s
    else if s[..|pat|] == pat then rep + ReplaceAll(s[|pat|..], pat, rep)
    else [s[0]] + ReplaceAll(s[1..], pat, rep)
  }

  /** `s.startswith(t)`. */
  predicate StartsWith(s: string, t: string)
  {
    |t| <= |s| && s[..|t|] == t
  }

  /** `s.endswith(t)`. */
  predicate EndsWith(s: string, t: string)
  {
    |t| <= |s| && s[|s| - |t|..] == t
  }

  /** `s.removesuffix(t)`. */
  function RemoveSuffix(s: string, t: string): (r: string)
    ensures EndsWith(s, t) ==> r + t == s
    ensures !EndsWith(s, t) ==> r == s
  {
    if EndsWith(s, t) then s[..|s| - |t|] else s
  }

  /** Number of occurrences of `c` in `s` (Python's `s.count(c)`). */
  function CountChar(s: string, c: char): nat
  {
    if s == [] then 0 else (if s[0] == c then 1 else 0) + CountChar(s[1..], c)
  }

  // ---------------------------------------------------------------------------
  // Whitespace and case

  /** Python's `str.isspace`, restricted to ASCII characters. */
  predicate IsPySpace(c: char)
  {
    c == ' ' || '\t' <= c <= '\r' || '\U{1C}' <= c <= '\U{1F}'
  }

  /** C's `isspace` (and the ASCII part of Rust's `char::is_whitespace`). */
  predicate IsCSpace(c: char)
  {
    c == ' ' || '\t' <= c <= '\r'
  }

  /** `s` with its leading characters satisfying `space` removed. */
  function TrimStart(s: string, space: char -> bool): (r: string)
    ensures |r| <= |s| && r == s[|s| - |r|..]
    ensures r == [] || !space(r[0])
    ensures forall i :: 0 <= i < |s| - |r| ==> space(s[i])
  {
    if s == [] || !space(s[0]) then s
    else
      var r := TrimStart(s[1..], space);
      assert r == s[|s| - |r|..];
      r
  }

  /** `s` with its trailing characters satisfying `space` removed. */
  function TrimEnd(s: string, space: char -> bool): (r: string)
    ensures |r| <= |s| && r == s[..|r|]
    ensures r == [] || !space(r[|r| - 1])
    ensures forall i :: |r| <= i < |s| ==> space(s[i])
  {
    if s == [] || !space(s[|s| - 1]) then s
    else
      var r := TrimEnd(s[..|s| - 1], space);
      assert r == s[..|r|];
      r
  }

  /** Python's `s.strip()` (or Rust's `trim`), for the given notion of space. */
  function Strip(s: string, space: char -> bool): string
  {
    TrimEnd(TrimStart(s, space), space)
  }

  function LowerChar(c: char): char
  {
    if 'A' <= c <= 'Z' then (c as int + 32) as char else c
  }

  function UpperChar(c: char): char
  {
    if 'a' <= c <= 'z' then (c as int - 32) as char else c
  }

  /** ASCII `str.lower()`. */
  function Lower(s: string): (r: string)
    ensures |r| == |s|
  {
    seq(|s|, i requires 0 <= i < |s| => LowerChar(s[i]))
  }

  // ---------------------------------------------------------------------------
  // Numerals

  function DigitChar(d: nat): char
    requires d < 16
  {
    "0123456789abcdef"[d]
  }

  /** The value of a digit character, if it is one of 0-9 or a-f. */
  function DigitValue(c: char): Option<nat>
  {
    if '0' <= c <= '9' then Some(c as int - '0' as int)
    else if 'a' <= c <= 'f' then Some(c as int - 'a' as int + 10)
    else None
  }

  lemma DigitValueOfDigitChar(d: nat)
    requires d < 16
    ensures DigitValue(DigitChar(d)) == Some(d)
  {
  }

  /** `n` written in `base` without leading zeros (`0` is "0"): Python's
      `str(n)` for base 10 and `f"{n:x}"` for base 16. */
  function Digits(n: nat, base: nat): (r: string)
    requires 2 <= base <= 16
    ensures |r| >= 1
    decreases n
  {
    if n < base then [DigitChar(n)]
    else Digits(n / base, base) + [DigitChar(n % base)]
  }

  /** The value of a non-empty string of digits below `base`. */
  function ParseDigits(s: string, base: nat): Option<nat>
    requires 2 <= base <= 16
    decreases |s|
  {
    if s == [] then None
    else
      var last := DigitValue(s[|s| - 1]);
      if last.None? || last.value >= base then None
      else if |s| == 1 then Some(last.value)
      else
        match ParseDigits(s[..|s| - 1], base)
        case None => None
        case Some(v) => Some(v * base + last.value)
  }

  /** Appending a digit multiplies by the base and adds the digit. */
  lemma ParseDigitsSnoc(p: string, d: nat, base: nat)
    requires 2 <= base <= 16 && d < base
    requires |p| >= 1 && ParseDigits(p, base).Some?
    ensures ParseDigits(p + [DigitChar(d)], base)
      == Some(ParseDigits(p, base).value * base + d)
  {
    var s := p + [DigitChar(d)];
    DigitValueOfDigitChar(d);
    assert s[..|s| - 1] == p;
  }

  lemma DivMod(n: nat, b: nat)
    requires b >= 2
    ensures (n / b) * b + n % b == n
    ensures n >= b ==> n / b < n
  {
  }

  /** Reading back a numeral gives the number. */
  lemma {:induction false} ParseDigitsOfDigits(n: nat, base: nat)
    requires 2 <= base <= 16
    ensures ParseDigits(Digits(n, base), base) == Some(n)
    decreases n
  {
    if n >= base {
      var q, d := n / base, n % base;
      DivMod(n, base);
      assert Digits(n, base) == Digits(q, base) + [DigitChar(d)];
      ParseDigitsOfDigits(q, base);
      ParseDigitsSnoc(Digits(q, base), d, base);
    } else {
      DigitValueOfDigitChar(n);
    }
  }

  /** Python's `str(n)` for an integer. */
  function IntToString(i: int): string
  {
    if i < 0 then "-" + Digits(-i, 10) else Digits(i, 10)
  }

  /** Lower-case hexadecimal, `f"{n:x}"`. */
  function Hex(n: nat): string
  {
    Digits(n, 16)
  }

  // ---------------------------------------------------------------------------
  // Ordering of strings by code points, and sorting

  /** Python's `a < b` on strings: lexicographic by code point. */
  predicate StrLt(a: string, b: string)
    decreases |a|
  {
    if |b| == 0 then false
    else if |a| == 0 then true
    else if a[0] != b[0] then a[0] < b[0]
    else StrLt(a[1..], b[1..])
  }

  predicate StrLe(a: string, b: string)
  {
    a == b || StrLt(a, b)
  }

  lemma {:induction false} StrLtIrreflexive(a: string)
    ensures !StrLt(a, a)
    decreases |a|
  {
    if |a| > 0 {
      StrLtIrreflexive(a[1..]);
    }
  }

  lemma {:induction false} StrLtTransitive(a: string, b: string, c: string)
    requires StrLt(a, b) && StrLt(b, c)
    ensures StrLt(a, c)
    decreases |a|
  {
    if |a| > 0 && a[0] == b[0] && b[0] == c[0] {
      StrLtTransitive(a[1..], b[1..], c[1..]);
    }
  }

  /** Any two different strings are ordered one way or the other. */
  lemma {:induction false} StrLtTotal(a: string, b: string)
    ensures a == b || StrLt(a, b) || StrLt(b, a)
    decreases |a|
  {
    if |a| > 0 && |b| > 0 && a[0] == b[0] {
      StrLtTotal(a[1..], b[1..]);
      if a[1..] == b[1..] {
        assert a == [a[0]] + a[1..] && b == [b[0]] + b[1..];
      }
    }
  }

  lemma StrLeTransitive(a: string, b: string, c: string)
    requires StrLe(a, b) && StrLe(b, c)
    ensures StrLe(a, c)
  {
    if a != b && b != c {
      StrLtTransitive(a, b, c);
    }
  }

  /** Ordered by `key`, ties allowed. */
  predicate SortedBy<T>(s: seq<T>, key: T -> string)
  {
    forall i, j :: 0 <= i < j < |s| ==> StrLe(key(s[i]), key(s[j]))
  }

  /** Inserts `x` before the first element whose key is not smaller, so that
      among equal keys earlier insertions stay first. */
  function InsertBy<T>(x: T, s: seq<T>, key: T -> string): (r: seq<T>)
    ensures multiset(r) == multiset(s) + multiset{x}
  {
    if s == [] || StrLe(key(x), key(s[0])) then [x] + s
    else
      var r := [s[0]] + InsertBy(x, s[1..], key);
      assert s == [s[0]] + s[1..];
      r
  }

  lemma {:induction false} InsertBySorted<T>(x: T, s: seq<T>, key: T -> string)
    requires SortedBy(s, key)
    ensures SortedBy(InsertBy(x, s, key), key)
  {
    var r := InsertBy(x, s, key);
    if s == [] {
    } else if StrLe(key(x), key(s[0])) {
      forall i, j | 0 <= i < j < |r| ensures StrLe(key(r[i]), key(r[j])) {
        if i == 0 {
          StrLeTransitive(key(x), key(s[0]), key(s[j - 1]));
        }
      }
    } else {
      StrLtTotal(key(x), key(s[0]));
      InsertBySorted(x, s[1..], key);
      var t := InsertBy(x, s[1..], key);
      assert r == [s[0]] + t;
      forall j | 0 <= j < |t| ensures StrLe(key(s[0]), key(t[j])) {
        assert t[j] in multiset(t);
        assert t[j] == x || t[j] in multiset(s[1..]);
        if t[j] != x {
          var k :| 0 <= k < |s[1..]| && s[1..][k] == t[j];
          assert s[1..][k] == s[k + 1];
        }
      }
    }
  }

  /** A stable insertion sort by `key`: Python's `sorted(s, key=key)`. */
  function SortBy<T>(s: seq<T>, key: T -> string): (r: seq<T>)
    ensures multiset(r) == multiset(s)
    ensures SortedBy(r, key)
  {
    if s == [] then []
    else
      var t := SortBy(s[1..], key);
      InsertBySorted(s[0], t, key);
      assert s == [s[0]] + s[1..];
      InsertBy(s[0], t, key)
  }

  /** `sorted(s, key=key)` for a set `s`: every element once, ordered by
      key; the order among equal keys is whatever the set yields. */
  method SortSetBy<T>(s: set<T>, key: T -> string) returns (r: seq<T>)
    ensures multiset(r) == multiset(s)
    ensures SortedBy(r, key)
  {
    r := [];
    var rest := s;
    while rest != {}
      invariant multiset(r) + multiset(rest) == multiset(s)
      invariant SortedBy(r, key)
      decreases |rest|
    {
      var x :| x in rest;
      InsertBySorted(x, r, key);
      r := InsertBy(x, r, key);
      assert multiset(rest - {x}) + multiset{x} == multiset(rest);
      rest := rest - {x};
    }
  }

  /** Keeping some elements of a sorted list leaves it sorted. */
  lemma {:induction false} FilterSortedBy<T>(s: seq<T>, p: T -> bool, key: T -> string)
    requires SortedBy(s, key)
    ensures SortedBy(Filter(s, p), key)
  {
    if s != [] {
      FilterSortedBy(s[1..], p, key);
      var t := Filter(s[1..], p);
      forall j | 0 <= j < |t| ensures StrLe(key(s[0]), key(t[j])) {
        var k :| 0 <= k < |s[1..]| && s[1..][k] == t[j];
        assert s[k + 1] == t[j];
      }
    }
  }

  /** Strictly increasing: sorted without duplicates. */
  predicate StrictlySorted(s: seq<string>)
  {
    forall i, j :: 0 <= i < j < |s| ==> StrLt(s[i], s[j])
  }

  /** Inserts `x` into a strictly increasing list unless it is there. */
  function InsertUnique(x: string, s: seq<string>): seq<string>
  {
    if s == [] then [x]
    else if x == s[0] then s
    else if StrLt(x, s[0]) then [x] + s
    else [s[0]] + InsertUnique(x, s[1..])
  }

  /** Insertion adds exactly `x`. */
  lemma {:induction false} InsertUniqueElems(x: string, s: seq<string>)
    ensures Elems(InsertUnique(x, s)) == Elems(s) + {x}
  {
    if s != [] && x != s[0] && !StrLt(x, s[0]) {
      InsertUniqueElems(x, s[1..]);
      assert s == [s[0]] + s[1..];
      assert Elems(s) == {s[0]} + Elems(s[1..]);
      assert Elems(InsertUnique(x, s)) == {s[0]} + Elems(InsertUnique(x, s[1..]));
    }
  }

  /** Insertion keeps the list strictly increasing. */
  lemma {:induction false} InsertUniqueSorted(x: string, s: seq<string>)
    requires StrictlySorted(s)
    ensures StrictlySorted(InsertUnique(x, s))
  {
    if s == [] || x == s[0] {
    } else if StrLt(x, s[0]) {
      var r := [x] + s;
      forall i, j | 0 <= i < j < |r| ensures StrLt(r[i], r[j]) {
        if i == 0 && j > 1 {
          StrLtTransitive(x, s[0], s[j - 1]);
        }
      }
    } else {
      var t := InsertUnique(x, s[1..]);
      assert forall j :: 0 <= j < |t| ==> StrLt(s[0], t[j]) by {
        StrLtTotal(x, s[0]);
        InsertUniqueElems(x, s[1..]);
        forall j | 0 <= j < |t| ensures StrLt(s[0], t[j]) {
          assert t[j] in Elems(t);
          if t[j] != x {
            assert t[j] in Elems(s[1..]);
            var k :| 0 <= k < |s[1..]| && s[1..][k] == t[j];
            assert s[k + 1] == t[j];
          }
        }
      }
      assert StrictlySorted(t) by {
        InsertUniqueSorted(x, s[1..]);
      }
      var r := [s[0]] + t;
      assert InsertUnique(x, s) == r;
      forall i, j | 0 <= i < j < |r| ensures StrLt(r[i], r[j]) {
        if i > 0 {
          assert r[i] == t[i - 1] && r[j] == t[j - 1];
        }
      }
    }
  }

  /** Python's `sorted(set(s))`: each string once, in increasing order. */
  function SortedUnique(s: seq<string>): (r: seq<string>)
    ensures Elems(r) == Elems(s)
    ensures StrictlySorted(r)
  {
    if s == [] then []
    else
      assert s == [s[0]] + s[1..];
      InsertUniqueElems(s[0], SortedUnique(s[1..]));
      InsertUniqueSorted(s[0], SortedUnique(s[1..]));
      InsertUnique(s[0], SortedUnique(s[1..]))
  }

  lemma StrictlySortedNoDups(s: seq<string>)
    requires StrictlySorted(s)
    ensures NoDups(s)
  {
    forall i, j | 0 <= i < j < |s| ensures s[i] != s[j] {
      if s[i] == s[j] {
        StrLtIrreflexive(s[i]);
      }
    }
  }
}
