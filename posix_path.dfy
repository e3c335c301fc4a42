/** The POSIX path functions the task-path helpers are built on
    (`os.path.join`, `basename`, `dirname`, `splitext`, `normpath`,
    `abspath` and `relpath` on a POSIX system). */
module PosixPath {
  import opened Common
  import opened Text

  /** Index of the last `c` in `s`, or -1 (`str.rfind`). */
  function RFind(s: string, c: char): (i: int)
    ensures -1 <= i < |s|
    ensures i >= 0 ==> s[i] == c
    ensures forall j :: i < j < |s| ==> s[j] != c
  {
    if s == [] then -1
    else if s[|s| - 1] == c then |s| - 1
    else RFind(s[..|s| - 1], c)
  }

  predicate IsAbs(p: string)
  {
    StartsWith(p, "/")
  }

  /** `os.path.join(a, b)`: an absolute `b` replaces `a`; otherwise a slash
      is put between them unless `a` is empty or already ends in one. */
  function PathJoin(a: string, b: string): (r: string)
    ensures IsAbs(b) ==> r == b
    ensures !IsAbs(b) ==> EndsWith(r, b)
  {
    if IsAbs(b) then b
    else if a == "" || a[|a| - 1] == '/' then a + b
    else a + "/" + b
  }

  /** `os.path.join(*parts)`: `None` for no parts (Python raises
      TypeError). */
  function JoinAll(parts: seq<string>): (r: Option<string>)
    ensures r.None? <==> parts == []
    decreases |parts|
  {
    if parts == [] then None
    else if |parts| == 1 then Some(parts[0])
    else Some(PathJoin(JoinAll(parts[..|parts| - 1]).value, parts[|parts| - 1]))
  }

  /** `os.path.basename`: the text after the last slash. */
  function Basename(p: string): (r: string)
    ensures '/' !in r
    ensures |r| <= |p| && p == p[..|p| - |r|] + r
  {
    p[RFind(p, '/') + 1..]
  }

  /** `os.path.dirname`: the text up to the last slash, trailing slashes
      removed unless it consists of slashes only. */
  function Dirname(p: string): (r: string)
    ensures |r| <= |p| && r == p[..|r|]
    ensures '/' !in p ==> r == ""
    ensures r == "" || r[|r| - 1] != '/' || forall j :: 0 <= j < |r| ==> r[j] == '/'
    ensures |r| + |Basename(p)| <= |p| && forall j :: |r| <= j < |p| - |Basename(p)| ==> p[j] == '/'
  {
    var head := p[..RFind(p, '/') + 1];
    if head != "" && exists j :: 0 <= j < |head| && head[j] != '/' then TrimEnd(head, c => c == '/')
    else head
  }

  /** `os.path.splitext`: the extension starts at the last dot of the base
      name, provided some character before it in the base name is not a
      dot. */
  function Splitext(p: string): (r: (string, string))
    ensures r.0 + r.1 == p
    ensures r.1 == "" || (r.1[0] == '.' && '.' !in r.1[1..] && '/' !in r.1)
  {
    var sep := RFind(p, '/');
    var dot := RFind(p, '.');
    if dot > sep && exists j :: sep + 1 <= j < dot && p[j] != '.' then
      assert p[..dot] + p[dot..] == p;
      assert forall j :: 1 <= j < |p[dot..]| ==> p[dot..][j] == p[dot + j];
      (p[..dot], p[dot..])
    else
      (p, "")
  }

  /** The extension-less part of `p`. */
  function Stem(p: string): string
  {
    Splitext(p).0
  }

  /** The components kept by `normpath`, folding `..` into its
      predecessor. `acc` holds the components kept so far. */
  function NormComps(comps: seq<string>, acc: seq<string>, absolute: bool): (r: seq<string>)
    requires forall i :: 0 <= i < |acc| ==> acc[i] != "" && acc[i] != "." && '/' !in acc[i]
    requires forall i :: 0 <= i < |comps| ==> '/' !in comps[i]
    ensures forall i :: 0 <= i < |r| ==> r[i] != "" && r[i] != "." && '/' !in r[i]
    ensures absolute && (forall i :: 0 <= i < |acc| ==> acc[i] != "..") ==>
      forall i :: 0 <= i < |r| ==> r[i] != ".."
    decreases |comps|
  {
    if comps == [] then acc
    else
      var c := comps[0];
      if c == "" || c == "." then NormComps(comps[1..], acc, absolute)
      else if c != ".." || (!absolute && acc == []) || (acc != [] && acc[|acc| - 1] == "..") then
        NormComps(comps[1..], acc + [c], absolute)
      else if acc != [] then NormComps(comps[1..], acc[..|acc| - 1], absolute)
      else NormComps(comps[1..], acc, absolute)
  }

  function Slashes(n: nat): (r: string)
    ensures |r| == n && forall i :: 0 <= i < n ==> r[i] == '/'
  {
    if n == 0 then "" else Slashes(n - 1) + "/"
  }

  /** Number of leading slashes `normpath` keeps: two stay two, any other
      positive number becomes one. */
  function LeadingSlashes(p: string): nat
  {
    if StartsWith(p, "//") && !StartsWith(p, "///") then 2
    else if StartsWith(p, "/") then 1
    else 0
  }

  /** `os.path.normpath`: no empty or `.` components, `..` folded where it
      can be, `.` for an empty result. */
  function Normpath(p: string): (r: string)
    ensures r != ""
    ensures IsAbs(p) <==> IsAbs(r)
  {
    assert !IsAbs(".") by {
      assert "."[..1][0] == '.' && "/"[0] == '/';
    }
    if p == "" then "."
    else
      var n := LeadingSlashes(p);
      var comps := NormComps(Split(p, '/'), [], n > 0);
      var r := Slashes(n) + Join(comps, '/');
      NormalJoinNotAbs(comps, n);
      if r == "" then "." else r
  }

  /** A normalised path starts with a slash exactly when it keeps one. */
  lemma NormalJoinNotAbs(comps: seq<string>, n: nat)
    requires forall i :: 0 <= i < |comps| ==> comps[i] != "" && '/' !in comps[i]
    ensures IsAbs(Slashes(n) + Join(comps, '/')) <==> n > 0
  {
    var r := Slashes(n) + Join(comps, '/');
    if n > 0 {
      assert r[0] == '/';
    } else if comps != [] {
      assert r == Join(comps, '/');
      JoinHead(comps);
      assert comps[0][0] in comps[0];
    }
  }

  lemma JoinHead(comps: seq<string>)
    requires comps != [] && comps[0] != ""
    ensures Join(comps, '/') != "" && Join(comps, '/')[0] == comps[0][0]
  {
  }

  /** A component `normpath` keeps as it is: not empty, `.` or `..`, and
      without a slash. */
  predicate Plain(c: string)
  {
    c != "" && c != "." && c != ".." && '/' !in c
  }

  /** The base name of anything after a slash (or of the whole string) is
      the base name of that part. */
  lemma BasenameConcat(x: string, b: string)
    requires x == "" || x[|x| - 1] == '/'
    ensures Basename(x + b) == Basename(b)
  {
    var s := x + b;
    var i := RFind(s, '/');
    var k := RFind(b, '/');
    if k >= 0 {
      assert s[|x| + k] == '/';
      assert i == |x| + k;
      assert s[i + 1..] == b[k + 1..];
    } else if x == "" {
      assert s == b;
    } else {
      assert s[|x| - 1] == '/';
      assert i == |x| - 1;
      assert s[i + 1..] == b;
    }
  }

  /** `join` keeps the base name of its last part. */
  lemma BasenameJoin(a: string, b: string)
    ensures Basename(PathJoin(a, b)) == Basename(b)
  {
    if IsAbs(b) {
    } else if a == "" || a[|a| - 1] == '/' {
      BasenameConcat(a, b);
    } else {
      BasenameConcat(a + "/", b);
      assert a + "/" + b == (a + "/") + b;
    }
  }

  lemma {:induction false} BasenameJoinAll(parts: seq<string>)
    requires parts != []
    ensures Basename(JoinAll(parts).value) == Basename(parts[|parts| - 1])
  {
    if |parts| > 1 {
      BasenameJoin(JoinAll(parts[..|parts| - 1]).value, parts[|parts| - 1]);
    }
  }

  /** A plain last component passes through the folding unchanged. */
  lemma {:induction false} NormCompsSnoc(comps: seq<string>, c: string, acc: seq<string>, absolute: bool)
    requires Plain(c)
    requires forall i :: 0 <= i < |acc| ==> acc[i] != "" && acc[i] != "." && '/' !in acc[i]
    requires forall i :: 0 <= i < |comps| ==> '/' !in comps[i]
    ensures NormComps(comps + [c], acc, absolute) == NormComps(comps, acc, absolute) + [c]
    decreases |comps|
  {
    var all := comps + [c];
    if comps == [] {
      assert NormComps(all, acc, absolute) == NormComps([], acc + [c], absolute);
    } else {
      assert all[0] == comps[0] && all[1..] == comps[1..] + [c];
      var d := comps[0];
      if d == "" || d == "." {
        NormCompsSnoc(comps[1..], c, acc, absolute);
      } else if d != ".." || (!absolute && acc == []) || (acc != [] && acc[|acc| - 1] == "..") {
        NormCompsSnoc(comps[1..], c, acc + [d], absolute);
      } else if acc != [] {
        NormCompsSnoc(comps[1..], c, acc[..|acc| - 1], absolute);
      } else {
        NormCompsSnoc(comps[1..], c, acc, absolute);
      }
    }
  }

  /** The pieces of `p` between slashes end with its base name. */
  lemma SplitAtBasename(p: string) returns (pieces: seq<string>)
    ensures Split(p, '/') == pieces + [Basename(p)]
  {
    var i := RFind(p, '/');
    if i < 0 {
      SplitNoSlash(p);
      pieces := [];
    } else {
      SplitAtLastSlash(p, i);
      pieces := Split(p[..i], '/');
    }
  }

  lemma SplitNoSlash(p: string)
    requires RFind(p, '/') < 0
    ensures Split(p, '/') == [] + [Basename(p)]
  {
    assert '/' !in p;
    assert Split(p, '/') == [p] && Basename(p) == p;
  }

  lemma SplitAtLastSlash(p: string, i: nat)
    requires i == RFind(p, '/')
    ensures Split(p, '/') == Split(p[..i], '/') + [Basename(p)]
  {
    var a, c := p[..i], p[i + 1..];
    CutAt(p, i);
    assert p == a + ['/'] + c;
    assert c == Basename(p);
    SplitSnoc(a, '/', c);
  }

  /** `p` is what comes before its `i`-th character, that character and
      what comes after it. */
  lemma CutAt(p: string, i: nat)
    requires i < |p|
    ensures p == p[..i] + [p[i]] + p[i + 1..]
  {
  }

  lemma BasenameNoSlash(c: string)
    requires '/' !in c
    ensures Basename(c) == c
  {
    assert RFind(c, '/') == -1;
  }

  /** The base name of slashes followed by joined pieces ending in `c`. */
  lemma BasenameOfJoined(n: nat, kept: seq<string>, c: string)
    requires '/' !in c
    ensures Basename(Slashes(n) + Join(kept + [c], '/')) == c
  {
    var x := if kept == [] then Slashes(n) else Slashes(n) + Join(kept, '/') + "/";
    assert Slashes(n) + Join(kept + [c], '/') == x + c by {
      JoinSnoc(kept, '/', c);
    }
    assert x == "" || x[|x| - 1] == '/';
    BasenameConcat(x, c);
    BasenameNoSlash(c);
  }

  /** Text without a slash appended to a path extends its base name. */
  lemma BasenameAppend(x: string, y: string)
    requires '/' !in y
    ensures Basename(x + y) == Basename(x) + y
  {
    var i := RFind(x, '/');
    RFindAppend(x, y, '/');
    assert (x + y)[i + 1..] == x[i + 1..] + y;
  }

  /** The last `c` of `x` is the last of `x + y` when `y` has none. */
  lemma {:induction false} RFindAppend(x: string, y: string, c: char)
    requires c !in y
    ensures RFind(x + y, c) == RFind(x, c)
    decreases |y|
  {
    if y == [] {
      assert x + y == x;
    } else {
      var s := x + y;
      var y' := y[..|y| - 1];
      assert s[..|s| - 1] == x + y' && s[|s| - 1] == y[|y| - 1];
      assert c !in y' by {
        assert forall j :: 0 <= j < |y'| ==> y'[j] == y[j];
      }
      RFindAppend(x, y', c);
    }
  }

  /** `normpath` keeps a plain base name. */
  lemma NormpathKeepsName(p: string)
    requires Plain(Basename(p))
    ensures Basename(Normpath(p)) == Basename(p)
  {
    var c := Basename(p);
    var n := LeadingSlashes(p);
    var pieces := SplitAtBasename(p);
    assert forall i :: 0 <= i < |pieces| ==> '/' !in pieces[i] by {
      assert forall i :: 0 <= i < |pieces| ==> pieces[i] == Split(p, '/')[i];
    }
    NormCompsSnoc(pieces, c, [], n > 0);
    var kept := NormComps(pieces, [], n > 0);
    BasenameOfJoined(n, kept, c);
    assert p != "";
    JoinSnoc(kept, '/', c);
    assert Join(kept + [c], '/') != "";
  }

  /** `os.path.abspath` relative to the working directory `cwd`. */
  function Abspath(cwd: string, p: string): string
  {
    Normpath(PathJoin(cwd, p))
  }

  /** The components of an absolute normalised path. */
  function Components(p: string): seq<string>
  {
    Filter(Split(p, '/'), (c: string) => c != "")
  }

  /** Length of the common prefix of two component lists. */
  function CommonLength(a: seq<string>, b: seq<string>): (n: nat)
    ensures n <= |a| && n <= |b| && a[..n] == b[..n]
    ensures n < |a| && n < |b| ==> a[n] != b[n]
  {
    if a == [] || b == [] || a[0] != b[0] then 0
    else
      var m := CommonLength(a[1..], b[1..]);
      assert a[..m + 1] == [a[0]] + a[1..][..m];
      assert b[..m + 1] == [b[0]] + b[1..][..m];
      m + 1
  }

  function Ups(n: nat): (r: seq<string>)
    ensures |r| == n && forall i :: 0 <= i < n ==> r[i] == ".."
  {
    if n == 0 then [] else Ups(n - 1) + [".."]
  }

  /** `os.path.relpath(path, start)` with both made absolute against `cwd`:
      climb out of what `start` does not share with `path`, then descend.
      Python raises ValueError for an empty `path`. */
  function Relpath(path: string, start: string, cwd: string): Result<string, string>
  {
    if path == "" then Err("no path specified")
    else
      var s := Components(Abspath(cwd, start));
      var t := Components(Abspath(cwd, path));
      var i := CommonLength(s, t);
      var rel := Ups(|s| - i) + t[i..];
      if rel == [] then Ok(".") else Ok(Join(rel, '/'))
  }

  /** A path below `start` is reached by descending only: its relative
      path is the components `start` does not have. */
  lemma RelpathBelow(path: string, start: string, cwd: string)
    requires path != ""
    requires var s := Components(Abspath(cwd, start));
      var t := Components(Abspath(cwd, path));
      |s| <= |t| && t[..|s|] == s
    ensures var s := Components(Abspath(cwd, start));
      var t := Components(Abspath(cwd, path));
      Relpath(path, start, cwd) == Ok(if |t| == |s| then "." else Join(t[|s|..], '/'))
  {
    var s := Components(Abspath(cwd, start));
    var t := Components(Abspath(cwd, path));
    var n := CommonLength(s, t);
    assert Ups(|s| - n) == [];
    assert Ups(|s| - n) + t[n..] == t[|s|..];
  }
}
