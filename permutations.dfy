/**
  The permutation generator: swap-based backtracking that enumerates every
  ordering of an array, in the fixed order its recursion visits them.

  `PermsFrom` and `PermsLoop` state that order as functions on values: the
  orderings `permute(arr, k)` records when started on contents `s`.
  `PermutationCollector.Permute` is the in-place recursion itself, proved to
  record exactly `PermsFrom` and to give the array back as it found it.
 */
module Permutations {

  /** `s` with the elements at positions `i` and `j` exchanged. */
  function Swap(s: seq<int>, i: nat, j: nat): (r: seq<int>)
    requires i < |s| && j < |s|
    ensures |r| == |s| && r[i] == s[j] && r[j] == s[i]
    ensures forall m :: 0 <= m < |s| && m != i && m != j ==> r[m] == s[m]
  {
    s[i := s[j]][j := s[i]]
  }

  /** The orderings `permute` records when called with start index `k` on contents `s`. */
  function PermsFrom(s: seq<int>, k: nat): seq<seq<int>>
    requires k <= |s|
    decreases |s| - k, 1
  {
    if k == |s| - 1 then [s] else PermsLoop(s, k, k)
  }

  /** What the `for` loop of `permute(s, k)` records from iteration `i` on. */
  function PermsLoop(s: seq<int>, k: nat, i: nat): seq<seq<int>>
    requires k <= i <= |s|
    decreases |s| - k, 0, |s| - i
  {
    if i == |s| then [] else PermsFrom(Swap(s, k, i), k + 1) + PermsLoop(s, k, i + 1)
  }

  function Factorial(n: nat): nat
  {
    if n == 0 then 1 else n * Factorial(n - 1)
  }

  /** The six orderings of `[a, b, c]`, in the order the backtracking visits them. */
  function TableOf(a: int, b: int, c: int): seq<seq<int>>
  {
    [[a, b, c], [a, c, b], [b, a, c], [b, c, a], [c, b, a], [c, a, b]]
  }

  lemma SwapPermutes(s: seq<int>, i: nat, j: nat)
    requires i < |s| && j < |s|
    ensures multiset(Swap(s, i, j)) == multiset(s)
  {
    var t := s[i := s[j]];
    assert multiset(t) == multiset(s) - multiset{s[i]} + multiset{s[j]};
    assert multiset(t[j := s[i]]) == multiset(t) - multiset{t[j]} + multiset{s[i]};
  }

  /** Every recorded ordering is a rearrangement of `s` that keeps the fixed prefix `s[..k]`. */
  lemma {:induction false} PermsShape(s: seq<int>, k: nat)
    requires k <= |s|
    ensures forall p :: p in PermsFrom(s, k) ==>
              |p| == |s| && p[..k] == s[..k] && multiset(p) == multiset(s)
    decreases |s| - k, 1
  {
    if k != |s| - 1 {
      PermsLoopShape(s, k, k);
    }
  }

  lemma {:induction false} PermsLoopShape(s: seq<int>, k: nat, i: nat)
    requires k <= i <= |s|
    ensures forall p :: p in PermsLoop(s, k, i) ==>
              |p| == |s| && p[..k] == s[..k] && multiset(p) == multiset(s)
    decreases |s| - k, 0, |s| - i
  {
    if i < |s| {
      var t := Swap(s, k, i);
      SwapPermutes(s, k, i);
      PermsShape(t, k + 1);
      PermsLoopShape(s, k, i + 1);
      forall p | p in PermsFrom(t, k + 1)
        ensures p[..k] == s[..k]
      {
        assert p[..k] == p[..k + 1][..k];
        assert t[..k] == s[..k];
      }
    }
  }

  /** Started at `k`, the recursion records (|s| - k)! orderings. */
  lemma {:induction false} PermsCount(s: seq<int>, k: nat)
    requires k < |s|
    ensures |PermsFrom(s, k)| == Factorial(|s| - k)
    decreases |s| - k, 1
  {
    if k != |s| - 1 {
      PermsLoopCount(s, k, k);
    }
  }

  lemma {:induction false} PermsLoopCount(s: seq<int>, k: nat, i: nat)
    requires k + 1 < |s| && k <= i <= |s|
    ensures |PermsLoop(s, k, i)| == (|s| - i) * Factorial(|s| - k - 1)
    decreases |s| - k, 0, |s| - i
  {
    if i < |s| {
      PermsCount(Swap(s, k, i), k + 1);
      PermsLoopCount(s, k, i + 1);
      var f := Factorial(|s| - k - 1);
      assert (|s| - i) * f == f + (|s| - (i + 1)) * f;
    }
  }

  lemma PermsLastTwo(x: int, y: int, z: int)
    ensures PermsFrom([x, y, z], 1) == [[x, y, z], [x, z, y]]
  {
    var s := [x, y, z];
    assert Swap(s, 1, 1) == s;
    assert Swap(s, 1, 2) == [x, z, y];
    assert PermsLoop(s, 1, 3) == [];
    assert PermsLoop(s, 1, 2) == PermsFrom([x, z, y], 2) + [] == [[x, z, y]];
    assert PermsLoop(s, 1, 1) == PermsFrom(s, 2) + PermsLoop(s, 1, 2) == [s] + [[x, z, y]];
  }

  /** For three elements the recursion records exactly `TableOf`, in that order, input first. */
  lemma TableOrder(a: int, b: int, c: int)
    ensures PermsFrom([a, b, c], 0) == TableOf(a, b, c)
  {
    var s := [a, b, c];
    assert Swap(s, 0, 0) == [a, b, c];
    assert Swap(s, 0, 1) == [b, a, c];
    assert Swap(s, 0, 2) == [c, b, a];
    PermsLastTwo(a, b, c);
    PermsLastTwo(b, a, c);
    PermsLastTwo(c, b, a);
    assert PermsLoop(s, 0, 3) == [];
    assert PermsLoop(s, 0, 2) == [[c, b, a], [c, a, b]];
    assert PermsLoop(s, 0, 1) == [[b, a, c], [b, c, a]] + [[c, b, a], [c, a, b]];
    assert PermsLoop(s, 0, 0) == [[a, b, c], [a, c, b]] + PermsLoop(s, 0, 1);
  }

  /** For pairwise-distinct elements the six recorded orderings are pairwise distinct. */
  lemma TableDistinct(a: int, b: int, c: int)
    requires a != b && b != c && a != c
    ensures var t := PermsFrom([a, b, c], 0);
      |t| == 6 && forall i, j :: 0 <= i < j < 6 ==> t[i] != t[j]
  {
    TableOrder(a, b, c);
    var t := TableOf(a, b, c);
    forall i, j | 0 <= i < j < 6
      ensures t[i] != t[j]
    {
      assert t[i][0] != t[j][0] || t[i][1] != t[j][1];
    }
  }

  /** Every row of the table is an ordering of `[a, b, c]`. */
  lemma TableRows(a: int, b: int, c: int)
    ensures forall p :: p in TableOf(a, b, c) ==> |p| == 3 && multiset(p) == multiset([a, b, c])
  {
    TableOrder(a, b, c);
    PermsShape([a, b, c], 0);
  }

  lemma RowIsOrdering(a: int, b: int, c: int, k: nat)
    requires k < 6
    ensures |TableOf(a, b, c)[k]| == 3 && multiset(TableOf(a, b, c)[k]) == multiset([a, b, c])
  {
    TableRows(a, b, c);
    assert TableOf(a, b, c)[k] in TableOf(a, b, c);
  }

  /** An ordering of three distinct values draws each position from them, with no repeats. */
  lemma OrderingEntries(a: int, b: int, c: int, p: seq<int>)
    requires a != b && b != c && a != c
    requires |p| == 3 && multiset(p) == multiset([a, b, c])
    ensures p[0] in {a, b, c} && p[1] in {a, b, c} && p[2] in {a, b, c}
    ensures p[0] != p[1] && p[1] != p[2] && p[0] != p[2]
  {
    var m := multiset([a, b, c]);
    assert m == multiset{a, b, c};
    assert multiset(p) == multiset{p[0], p[1], p[2]} by {
      assert p == [p[0], p[1], p[2]];
    }
    assert m[a] == 1 && m[b] == 1 && m[c] == 1;
    forall v | v !in {a, b, c}
      ensures m[v] == 0
    {
    }
  }

  lemma DistinctEntriesInTable(a: int, b: int, c: int, p: seq<int>)
    requires a != b && b != c && a != c && |p| == 3
    requires p[0] in {a, b, c} && p[1] in {a, b, c} && p[2] in {a, b, c}
    requires p[0] != p[1] && p[1] != p[2] && p[0] != p[2]
    ensures p in TableOf(a, b, c)
  {
    assert p == [p[0], p[1], p[2]];
  }

  /**
    For pairwise-distinct elements the table holds a sequence exactly when it
    is an ordering of `[a, b, c]`: nothing else, and nothing is missing.
   */
  lemma TableIsAllOrderings(a: int, b: int, c: int, p: seq<int>)
    requires a != b && b != c && a != c
    ensures p in PermsFrom([a, b, c], 0) <==> |p| == 3 && multiset(p) == multiset([a, b, c])
  {
    TableOrder(a, b, c);
    PermsShape([a, b, c], 0);
    if |p| == 3 && multiset(p) == multiset([a, b, c]) {
      OrderingEntries(a, b, c, p);
      DistinctEntriesInTable(a, b, c, p);
    }
  }

  /** The `result` list that `permute` appends to, with `permute` itself. */
  class PermutationCollector {
    var result: seq<seq<int>>

    constructor ()
      ensures result == []
    {
      result := [];
    }

    /**
      Swaps each candidate into `arr[startIndex]`, recurses on the rest and
      swaps it back; at the last position records a snapshot of `arr`.
     */
    method Permute(arr: array<int>, startIndex: nat)
      requires startIndex <= arr.Length
      modifies this, arr
      ensures arr[..] == old(arr[..])
      ensures result == old(result) + PermsFrom(old(arr[..]), startIndex)
      decreases arr.Length - startIndex
    {
      if startIndex == arr.Length - 1 {
        result := result + [arr[..]];
        return;
      }
      ghost var s := arr[..];
      var i := startIndex;
      while i < arr.Length
        invariant startIndex <= i <= arr.Length
        invariant arr[..] == s
        invariant result + PermsLoop(s, startIndex, i) == old(result) + PermsFrom(s, startIndex)
      {
        arr[startIndex], arr[i] := arr[i], arr[startIndex];
        assert arr[..] == Swap(s, startIndex, i);
        ghost var before := result;
        Permute(arr, startIndex + 1);
        arr[startIndex], arr[i] := arr[i], arr[startIndex];
        assert arr[..] == s;
        assert result + PermsLoop(s, startIndex, i + 1)
            == before + (PermsFrom(Swap(s, startIndex, i), startIndex + 1) + PermsLoop(s, startIndex, i + 1));
        i := i + 1;
      }
    }
  }

  /**
    Every ordering of `arr`, in backtracking order; `arr` is swapped in place
    while this runs and holds its original contents again when it returns.
   */
  method GeneratePermutations(arr: array<int>) returns (result: seq<seq<int>>)
    modifies arr
    ensures arr[..] == old(arr[..])
    ensures result == PermsFrom(arr[..], 0)
    ensures arr.Length > 0 ==> |result| == Factorial(arr.Length)
    ensures arr.Length == 3 ==> result == TableOf(arr[0], arr[1], arr[2])
    ensures forall p :: p in result ==> |p| == arr.Length && multiset(p) == multiset(arr[..])
  {
    var collector := new PermutationCollector();
    collector.Permute(arr, 0);
    result := collector.result;
    PermsShape(arr[..], 0);
    if arr.Length > 0 {
      PermsCount(arr[..], 0);
    }
    if arr.Length == 3 {
      assert arr[..] == [arr[0], arr[1], arr[2]];
      TableOrder(arr[0], arr[1], arr[2]);
    }
  }
}
