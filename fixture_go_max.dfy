/** The Go solutions of the `max` fixture: the `max` function of the
    complex solution, and the simple solution's `main`, which scans a count
    and that many numbers and prints their running maximum. */
module GoMax {
  import opened Common
  import opened Text
  import opened MinMax
  import opened FixtureNumbers

  /** How a call of `max` ends: the value it returns, or the run-time
      panic of indexing an empty slice. */
  datatype MaxOutcome = Panic | Returned(value: int)

  /** `max`: starts from the first element and keeps the larger one while
      ranging over the slice; an empty slice makes `nums[0]` panic. */
  method Max(nums: seq<int>) returns (r: MaxOutcome)
    ensures r.Panic? <==> |nums| == 0
    ensures r.Returned? ==> r.value == SeqMax(nums)
    ensures r.Returned? ==> r.value in nums && forall i :: 0 <= i < |nums| ==> nums[i] <= r.value
    ensures r.Returned? && (forall i :: 0 <= i < |nums| ==> nums[i] <= nums[0]) ==> r.value == nums[0]
  {
    if |nums| == 0 {
      return Panic;
    }
    var result := nums[0];
    var i := 0;
    while i < |nums|
      invariant 0 <= i <= |nums|
      invariant result == SeqMax(nums[..if i == 0 then 1 else i])
    {
      var num := nums[i];
      if num > result {
        result := num;
      }
      if i > 0 {
        assert nums[..i + 1] == nums[..i] + [num];
        SeqMaxSnoc(nums[..i], num);
      }
      i := i + 1;
    }
    assert nums[..i] == nums;
    r := Returned(result);
  }

  // ---------------------------------------------------------------------------
  // The simple solution

  /** What the `i`-th read of a number stores: `fmt.Fscan` leaves the
      variable as it was when it fails, and the input has run out after
      the last scan given. */
  function ReadInto(scans: seq<Option<int>>, i: nat, previous: int): int
  {
    if i < |scans| && scans[i].Some? then scans[i].value else previous
  }

  /** The variables `x` and `max` after `k` rounds of the loop. */
  function Rounds(scans: seq<Option<int>>, k: nat): (int, int)
  {
    if k == 0 then (0, 0)
    else
      var (x, best) := Rounds(scans, k - 1);
      var y := ReadInto(scans, k - 1, x);
      (y, if k - 1 == 0 || y > best then y else best)
  }

  /** The standard output of `main`: nothing when the count cannot be read,
      otherwise `max` and a newline. */
  function SimpleOutput(n: Option<int>, scans: seq<Option<int>>): Option<string>
  {
    if n.None? then None
    else Some(IntToString(Rounds(scans, if n.value > 0 then n.value else 0).1) + "\n")
  }

  /** `main` of the simple solution; `n` is the result of reading the count
      and `scans` those of reading the numbers. */
  method SimpleMain(n: Option<int>, scans: seq<Option<int>>) returns (out: Option<string>)
    ensures out == SimpleOutput(n, scans)
  {
    if n.None? {
      return None;
    }
    var x, best := 0, 0;
    var i := 0;
    while i < n.value
      invariant 0 <= i <= (if n.value > 0 then n.value else 0)
      invariant (x, best) == Rounds(scans, i)
    {
      x := ReadInto(scans, i, x);
      if i == 0 || x > best {
        best := x;
      }
      i := i + 1;
    }
    out := Some(IntToString(best) + "\n");
  }

  /** The numbers read when each of the first `k` scans succeeds. */
  function ReadValues(scans: seq<Option<int>>, k: nat): (r: seq<int>)
    requires k <= |scans| && forall i :: 0 <= i < k ==> scans[i].Some?
    ensures |r| == k && forall i :: 0 <= i < k ==> r[i] == scans[i].value
  {
    if k == 0 then [] else ReadValues(scans, k - 1) + [scans[k - 1].value]
  }

  /** When every read succeeds, `max` after `k >= 1` rounds is the maximum
      of the first `k` numbers, negative ones included: the first number
      always replaces the initial 0. */
  lemma {:induction false} RoundsMax(scans: seq<Option<int>>, k: nat)
    requires 1 <= k <= |scans| && forall i :: 0 <= i < k ==> scans[i].Some?
    ensures Rounds(scans, k).1 == SeqMax(ReadValues(scans, k))
    ensures Rounds(scans, k).0 == scans[k - 1].value
  {
    if k > 1 {
      RoundsMax(scans, k - 1);
      SeqMaxSnoc(ReadValues(scans, k - 1), scans[k - 1].value);
    }
  }

  /** The output for a well-formed input: the maximum of the `n` numbers
      read, on one line; a count of zero or less prints 0. */
  lemma SimpleOutputSpec(n: int, scans: seq<Option<int>>)
    ensures n <= 0 ==> SimpleOutput(Some(n), scans) == Some("0\n")
    ensures 1 <= n <= |scans| && (forall i :: 0 <= i < n ==> scans[i].Some?) ==>
              SimpleOutput(Some(n), scans) == Some(IntToString(SeqMax(ReadValues(scans, n))) + "\n")
  {
    if 1 <= n <= |scans| && (forall i :: 0 <= i < n ==> scans[i].Some?) {
      RoundsMax(scans, n);
    }
    if n <= 0 {
      assert DigitChar(0) == '0';
      assert IntToString(0) == "0";
      assert Rounds(scans, 0).1 == 0;
      assert IntToString(0) + "\n" == "0\n";
    }
  }

  /** The output is exactly one line: its only newline ends it. */
  lemma SimpleOutputOneLine(n: Option<int>, scans: seq<Option<int>>)
    requires n.Some?
    ensures var out := SimpleOutput(n, scans).value;
            out != [] && out[|out| - 1] == '\n' && forall i :: 0 <= i < |out| - 1 ==> out[i] != '\n'
  {
    var v := Rounds(scans, if n.value > 0 then n.value else 0).1;
    IntToStringNoSpace(v);
    var out := IntToString(v) + "\n";
    assert forall i :: 0 <= i < |out| - 1 ==> out[i] == IntToString(v)[i];
  }
}
