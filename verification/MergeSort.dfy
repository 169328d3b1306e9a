/** The array merge sort of the compaction notes, with its element comparisons counted. */
module MergeSort {

  // ---- Specification ----

  function Merged(l: seq<int>, r: seq<int>): (s: seq<int>)
    ensures |s| == |l| + |r|
  {
    if l == [] then r
    else if r == [] then l
    else if l[0] < r[0] then [l[0]] + Merged(l[1..], r)
    else [r[0]] + Merged(l, r[1..])
  }

  /** Element comparisons made by merging. */
  function MergeCost(l: seq<int>, r: seq<int>): nat {
    if l == [] || r == [] then 0
    else if l[0] < r[0] then 1 + MergeCost(l[1..], r)
    else 1 + MergeCost(l, r[1..])
  }

  function Sorted(s: seq<int>): (t: seq<int>)
    ensures |t| == |s|
    decreases |s|
  {
    if |s| < 2 then s
    else Merged(Sorted(s[..|s| / 2]), Sorted(s[|s| / 2..]))
  }

  function SortCost(s: seq<int>): nat
    decreases |s|
  {
    if |s| < 2 then 0
    else SortCost(s[..|s| / 2]) + SortCost(s[|s| / 2..]) + MergeCost(Sorted(s[..|s| / 2]), Sorted(s[|s| / 2..]))
  }

  predicate Ascending(s: seq<int>) {
    forall i, j | 0 <= i < j < |s| :: s[i] <= s[j]
  }

  function CeilLog2(n: nat): nat {
    if n < 2 then 0 else 1 + CeilLog2((n + 1) / 2)
  }

  function Pow2(k: nat): nat {
    if k == 0 then 1 else 2 * Pow2(k - 1)
  }

  // ---- What the specification means ----

  lemma {:induction false} MergedIsPermutation(l: seq<int>, r: seq<int>)
    ensures multiset(Merged(l, r)) == multiset(l) + multiset(r)
    decreases |l| + |r|
  {
    if l != [] && r != [] {
      if l[0] < r[0] {
        MergedIsPermutation(l[1..], r);
        assert l == [l[0]] + l[1..];
      } else {
        MergedIsPermutation(l, r[1..]);
        assert r == [r[0]] + r[1..];
      }
    }
  }

  predicate AllAtLeast(x: int, s: seq<int>) {
    forall i | 0 <= i < |s| :: x <= s[i]
  }

  lemma {:induction false} MergedAtLeast(x: int, l: seq<int>, r: seq<int>)
    requires AllAtLeast(x, l) && AllAtLeast(x, r)
    ensures AllAtLeast(x, Merged(l, r))
    decreases |l| + |r|
  {
    if l != [] && r != [] {
      if l[0] < r[0] {
        MergedAtLeast(x, l[1..], r);
      } else {
        MergedAtLeast(x, l, r[1..]);
      }
    }
  }

  lemma AscendingCons(x: int, s: seq<int>)
    requires AllAtLeast(x, s) && Ascending(s)
    ensures Ascending([x] + s)
  {
  }

  lemma {:induction false} MergedAscends(l: seq<int>, r: seq<int>)
    requires Ascending(l) && Ascending(r)
    ensures Ascending(Merged(l, r))
    decreases |l| + |r|
  {
    if l != [] && r != [] {
      if l[0] < r[0] {
        MergedAscends(l[1..], r);
        MergedAtLeast(l[0], l[1..], r);
        AscendingCons(l[0], Merged(l[1..], r));
      } else {
        MergedAscends(l, r[1..]);
        MergedAtLeast(r[0], l, r[1..]);
        AscendingCons(r[0], Merged(l, r[1..]));
      }
    }
  }

  lemma {:induction false} MergeCostBound(l: seq<int>, r: seq<int>)
    ensures MergeCost(l, r) <= |l| + |r|
    decreases |l| + |r|
  {
    if l != [] && r != [] {
      if l[0] < r[0] {
        MergeCostBound(l[1..], r);
      } else {
        MergeCostBound(l, r[1..]);
      }
    }
  }

  /** The result is the sorted permutation of the input. */
  lemma {:induction false} SortedIsSorted(s: seq<int>)
    ensures Ascending(Sorted(s)) && multiset(Sorted(s)) == multiset(s)
    decreases |s|
  {
    if |s| >= 2 {
      var l, r := s[..|s| / 2], s[|s| / 2..];
      SortedIsSorted(l);
      SortedIsSorted(r);
      MergedAscends(Sorted(l), Sorted(r));
      MergedIsPermutation(Sorted(l), Sorted(r));
      assert s == l + r;
    }
  }

  /** CeilLog2 is the least exponent whose power of two reaches `n`. */
  lemma {:induction false} CeilLog2IsLeast(n: nat)
    requires n > 0
    ensures n <= Pow2(CeilLog2(n))
    ensures n > 1 ==> Pow2(CeilLog2(n) - 1) < n
  {
    if n >= 2 {
      CeilLog2IsLeast((n + 1) / 2);
    }
  }

  lemma {:induction false} CeilLog2Monotone(m: nat, n: nat)
    requires m <= n
    ensures CeilLog2(m) <= CeilLog2(n)
  {
    if m >= 2 {
      CeilLog2Monotone((m + 1) / 2, (n + 1) / 2);
    }
  }

  lemma HalvesBound(x: nat, y: nat, z: nat, p: nat, q: nat, cp: nat, c: nat, n: nat, k: nat)
    requires x <= p * cp && y <= q * c && z <= p + q && cp <= c
    requires p + q == n && 1 + c == k
    ensures x + y + z <= n * k
  {
    assert p * cp <= p * c;
    assert n * k == p + q + p * c + q * c;
  }

  /** At most n * ceil(log2 n) element comparisons. */
  lemma {:induction false} SortCostBound(s: seq<int>)
    ensures SortCost(s) <= |s| * CeilLog2(|s|)
    decreases |s|
  {
    if |s| >= 2 {
      var l, r := s[..|s| / 2], s[|s| / 2..];
      SortCostBound(l);
      SortCostBound(r);
      MergeCostBound(Sorted(l), Sorted(r));
      CeilLog2Monotone(|l|, |r|);
      assert |r| == (|s| + 1) / 2;
      HalvesBound(SortCost(l), SortCost(r), MergeCost(Sorted(l), Sorted(r)),
                  |l|, |r|, CeilLog2(|l|), CeilLog2(|r|), |s|, CeilLog2(|s|));
    }
  }

  /** Merging makes at least one comparison for every element of the shorter input. */
  lemma {:induction false} MergeCostAtLeast(l: seq<int>, r: seq<int>)
    ensures MergeCost(l, r) >= |l| || MergeCost(l, r) >= |r|
    decreases |l| + |r|
  {
    if l != [] && r != [] {
      if l[0] < r[0] {
        MergeCostAtLeast(l[1..], r);
      } else {
        MergeCostAtLeast(l, r[1..]);
      }
    }
  }

  function FloorLog2(n: nat): nat {
    if n < 2 then 0 else 1 + FloorLog2(n / 2)
  }

  /** FloorLog2 is the greatest exponent whose power of two does not exceed `n`. */
  lemma {:induction false} FloorLog2IsGreatest(n: nat)
    requires n > 0
    ensures Pow2(FloorLog2(n)) <= n < Pow2(FloorLog2(n) + 1)
  {
    if n >= 2 {
      FloorLog2IsGreatest(n / 2);
    }
  }

  lemma {:induction false} FloorLog2Monotone(m: nat, n: nat)
    requires m <= n
    ensures FloorLog2(m) <= FloorLog2(n)
  {
    if m >= 2 {
      FloorLog2Monotone(m / 2, n / 2);
    }
  }

  lemma HalvesAtLeast(x: nat, y: nat, z: nat, p: nat, q: nat, fp: nat, fq: nat, n: nat)
    requires 2 * x >= p * fp - (p - 1) && 2 * y >= q * fq - (q - 1) && z >= p && fq >= fp
    requires p + q == n && p <= q <= p + 1
    ensures 2 * (x + y + z) >= n * (fp + 1) - (n - 1)
  {
    assert q * fq >= q * fp;
    assert n * (fp + 1) == p * fp + q * fp + n;
  }

  /** And, with SortCostBound, no fewer comparisons than about half of that bound. */
  lemma {:induction false} SortCostAtLeast(s: seq<int>)
    requires s != []
    ensures 2 * SortCost(s) >= |s| * FloorLog2(|s|) - (|s| - 1)
    decreases |s|
  {
    if |s| >= 2 {
      var l, r := s[..|s| / 2], s[|s| / 2..];
      SortCostAtLeast(l);
      SortCostAtLeast(r);
      MergeCostAtLeast(Sorted(l), Sorted(r));
      FloorLog2Monotone(|l|, |r|);
      HalvesAtLeast(SortCost(l), SortCost(r), MergeCost(Sorted(l), Sorted(r)),
                    |l|, |r|, FloorLog2(|l|), FloorLog2(|r|), |s|);
    }
  }

  // ---- The algorithm ----

  /** Appends `from[i..count]` to what stands in `a` before `k`. */
  method AppendRest(a: array<int>, k: nat, from: array<int>, i: nat, count: nat) returns (end: nat)
    requires i <= count <= from.Length && k + (count - i) <= a.Length && a != from
    modifies a
    ensures end == k + (count - i)
    ensures a[..end] == old(a[..k]) + from[i..count]
    ensures forall x | end <= x < a.Length :: a[x] == old(a[x])
  {
    var j := i;
    end := k;
    while j < count
      invariant i <= j <= count && end == k + (j - i)
      invariant a[..end] == old(a[..k]) + from[i..j]
      invariant forall x | end <= x < a.Length :: a[x] == old(a[x])
    {
      ghost var done := a[..end];
      a[end] := from[j];
      assert a[..end + 1] == done + [from[j]];
      end, j := end + 1, j + 1;
      assert from[i..j] == from[i..j - 1] + [from[j - 1]];
    }
  }

  method CopyOut(a: array<int>, lo: nat, hi: nat) returns (b: array<int>)
    requires lo <= hi <= a.Length
    ensures fresh(b) && b[..] == a[lo..hi]
  {
    b := new int[hi - lo];
    for i := lo to hi
      invariant b[..i - lo] == a[lo..i]
    {
      b[i - lo] := a[i];
    }
  }

  /** The loop that runs while both inputs have elements left. */
  method MergeWhileBoth(a: array<int>, l: array<int>, leftCount: nat, r: array<int>, rightCount: nat)
    returns (i: nat, j: nat, k: nat, ghost compared: nat)
    requires leftCount <= l.Length && rightCount <= r.Length && leftCount + rightCount <= a.Length
    requires a != l && a != r
    modifies a
    ensures i <= leftCount && j <= rightCount && (i == leftCount || j == rightCount) && k == i + j
    ensures a[..k] + Merged(l[..leftCount][i..], r[..rightCount][j..]) == Merged(l[..leftCount], r[..rightCount])
    ensures forall x | k <= x < a.Length :: a[x] == old(a[x])
    ensures compared + MergeCost(l[..leftCount][i..], r[..rightCount][j..])
         == MergeCost(l[..leftCount], r[..rightCount])
  {
    ghost var ls, rs, done := l[..leftCount], r[..rightCount], [];
    i, j, k, compared := 0, 0, 0, 0;
    while i < leftCount && j < rightCount
      invariant 0 <= i <= leftCount && 0 <= j <= rightCount && k == i + j
      invariant |done| == k && forall x | 0 <= x < a.Length :: a[x] == if x < k then done[x] else old(a[x])
      invariant done + Merged(ls[i..], rs[j..]) == Merged(ls, rs)
      invariant compared + MergeCost(ls[i..], rs[j..]) == MergeCost(ls, rs)
    {
      MergeTurn(done, ls, i, rs, j);
      compared := compared + 1;
      if l[i] < r[j] {
        a[k] := l[i];
        done := done + [l[i]];
        k, i := k + 1, i + 1;
      } else {
        a[k] := r[j];
        done := done + [r[j]];
        k, j := k + 1, j + 1;
      }
    }
    assert a[..k] == done;
  }

  method Merge(a: array<int>, l: array<int>, leftCount: nat, r: array<int>, rightCount: nat)
    returns (ghost compared: nat)
    requires leftCount <= l.Length && rightCount <= r.Length && leftCount + rightCount <= a.Length
    requires a != l && a != r
    modifies a
    ensures a[..leftCount + rightCount] == Merged(l[..leftCount], r[..rightCount])
    ensures forall x | leftCount + rightCount <= x < a.Length :: a[x] == old(a[x])
    ensures compared == MergeCost(l[..leftCount], r[..rightCount])
  {
    ghost var ls, rs := l[..leftCount], r[..rightCount];
    var i, j, k;
    i, j, k, compared := MergeWhileBoth(a, l, leftCount, r, rightCount);
    MergeEnd(ls, i, rs, j);
    ghost var done := a[..k];
    assert l[i..leftCount] == ls[i..] && r[j..rightCount] == rs[j..];
    k := AppendRest(a, k, l, i, leftCount);
    k := AppendRest(a, k, r, j, rightCount);
    assert done + ls[i..] + rs[j..] == done + (ls[i..] + rs[j..]);
  }

  lemma MergeTurn(done: seq<int>, l: seq<int>, i: nat, r: seq<int>, j: nat)
    requires i < |l| && j < |r|
    ensures l[i] < r[j] ==>
              && done + Merged(l[i..], r[j..]) == done + [l[i]] + Merged(l[i + 1..], r[j..])
              && MergeCost(l[i..], r[j..]) == 1 + MergeCost(l[i + 1..], r[j..])
    ensures l[i] >= r[j] ==>
              && done + Merged(l[i..], r[j..]) == done + [r[j]] + Merged(l[i..], r[j + 1..])
              && MergeCost(l[i..], r[j..]) == 1 + MergeCost(l[i..], r[j + 1..])
  {
    assert l[i..][1..] == l[i + 1..] && r[j..][1..] == r[j + 1..];
  }

  lemma MergeEnd(l: seq<int>, i: nat, r: seq<int>, j: nat)
    requires i <= |l| && j <= |r| && (i == |l| || j == |r|)
    ensures Merged(l[i..], r[j..]) == l[i..] + r[j..] && MergeCost(l[i..], r[j..]) == 0
  {
  }

  /** Sorts the first `n` elements in place; anything after them is left alone. */
  method Sort(a: array<int>, n: int) returns (ghost compared: nat)
    requires n <= a.Length
    modifies a
    ensures n >= 0 ==> a[..n] == Sorted(old(a[..n])) && a[n..] == old(a[n..])
    ensures n >= 0 ==> compared == SortCost(old(a[..n]))
    ensures n < 0 ==> a[..] == old(a[..])
    decreases n
  {
    compared := 0;
    if n < 2 {
      return;
    }
    ghost var s := a[..n];
    var mid := n / 2;
    var l := CopyOut(a, 0, mid);
    var r := CopyOut(a, mid, n);
    assert l[..mid] == s[..mid] && r[..n - mid] == s[mid..];
    ghost var left := Sort(l, mid);
    ghost var right := Sort(r, n - mid);
    ghost var merging := Merge(a, l, mid, r, n - mid);
    compared := left + right + merging;
    assert mid + (n - mid) == n;
  }
}
