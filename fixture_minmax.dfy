/** The `minmax` library of the `max` fixture's Rust solutions: the least
    and the greatest of a list of `i64`, an error for an empty list. */
module MinMax {
  import opened Common

  /** The greatest element of a non-empty list, from the left. */
  function SeqMax(s: seq<int>): (m: int)
    requires |s| > 0
    ensures m in s
    ensures forall i :: 0 <= i < |s| ==> s[i] <= m
  {
    if |s| == 1 then s[0]
    else
      var p, last := s[..|s| - 1], s[|s| - 1];
      var m := SeqMax(p);
      assert s == p + [last];
      if last > m then last else m
  }

  /** The least element of a non-empty list, from the left. */
  function SeqMin(s: seq<int>): (m: int)
    requires |s| > 0
    ensures m in s
    ensures forall i :: 0 <= i < |s| ==> m <= s[i]
  {
    if |s| == 1 then s[0]
    else
      var p, last := s[..|s| - 1], s[|s| - 1];
      var m := SeqMin(p);
      assert s == p + [last];
      if last < m then last else m
  }

  /** An element at least as large as every element is the maximum. */
  lemma MaxUnique(s: seq<int>, m: int)
    requires m in s && forall x :: x in s ==> x <= m
    ensures SeqMax(s) == m
  {
  }

  /** An element at most as large as every element is the minimum. */
  lemma MinUnique(s: seq<int>, m: int)
    requires m in s && forall x :: x in s ==> m <= x
    ensures SeqMin(s) == m
  {
  }

  /** `min`: the least element; an empty list has none. */
  function Min(list: seq<int>): (r: Result<int, string>)
    ensures r.Err? <==> list == []
    ensures r.Err? ==> r.error == "minimum is not finite"
    ensures r.Ok? ==> r.value in list && forall x :: x in list ==> r.value <= x
  {
    if list == [] then Err("minimum is not finite") else Result.Ok(SeqMin(list))
  }

  /** `max`: the greatest element; an empty list has none. */
  function Max(list: seq<int>): (r: Result<int, string>)
    ensures r.Err? <==> list == []
    ensures r.Err? ==> r.error == "maximum is not finite"
    ensures r.Ok? ==> r.value in list && forall x :: x in list ==> x <= r.value
  {
    if list == [] then Err("maximum is not finite") else Result.Ok(SeqMax(list))
  }

  /** The minimum is at most the maximum, and they are equal exactly when
      every element is the same. */
  lemma MinLeMax(list: seq<int>)
    requires list != []
    ensures Min(list).value <= Max(list).value
    ensures Min(list).value == Max(list).value <==> forall x :: x in list ==> x == list[0]
  {
    var lo, hi := Min(list).value, Max(list).value;
    assert list[0] in list;
    if lo == hi {
      forall x | x in list ensures x == list[0] {
        assert lo <= x <= hi;
      }
    }
  }

  /** Appending an element: the maximum of the two. */
  lemma {:induction false} SeqMaxSnoc(s: seq<int>, x: int)
    requires |s| > 0
    ensures SeqMax(s + [x]) == if x > SeqMax(s) then x else SeqMax(s)
  {
    assert (s + [x])[..|s + [x]| - 1] == s;
  }
}
