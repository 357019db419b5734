/** The |w| ordering of oskar_imager_update.c: the comparators compare_f /
    compare_d and oskar_imager_sort_by_abs_w, which sorts five parallel arrays
    (u, v, w, amplitude, weight) by |w| in place. The library qsort that orders
    the pointer array is modelled by an insertion sort over an index array
    using the same comparator; the cycle-following loop that then applies the
    permutation to the five arrays is modelled as written. */
module ImagerSort {
  import opened Common

  /** compare_f / compare_d: three-way comparison of |w0| and |w1|. */
  function CompareAbsW(w0: real, w1: real): (r: int)
    ensures r == 1 <==> Abs(w0) > Abs(w1)
    ensures r == -1 <==> Abs(w0) < Abs(w1)
    ensures r == 0 <==> Abs(w0) == Abs(w1)
  {
    var a0 := Abs(w0);
    var a1 := Abs(w1);
    if a0 > a1 then 1 else if a0 < a1 then -1 else 0
  }

  /** The comparator is antisymmetric, ignores the sign of w, and is
      transitive: it is a total preorder, as qsort requires. */
  lemma CompareIsTotalPreorder(a: real, b: real, c: real)
    ensures CompareAbsW(a, b) == -CompareAbsW(b, a)
    ensures CompareAbsW(-a, b) == CompareAbsW(a, b) && CompareAbsW(a, -b) == CompareAbsW(a, b)
    ensures CompareAbsW(a, b) <= 0 && CompareAbsW(b, c) <= 0 ==> CompareAbsW(a, c) <= 0
    ensures CompareAbsW(a, a) == 0
  {
  }

  /** `p` is a bijection on [0, n): in range and injective. */
  ghost predicate IsPermutation(p: seq<nat>, n: nat)
  {
    && |p| == n
    && (forall m :: 0 <= m < n ==> p[m] < n)
    && (forall m1, m2 :: 0 <= m1 < n && 0 <= m2 < n && m1 != m2 ==> p[m1] != p[m2])
  }

  /** Row `m` of the result is row `p[m]` of the input. */
  function Permute<T>(s: seq<T>, p: seq<nat>): (r: seq<T>)
    requires forall m :: 0 <= m < |p| ==> p[m] < |s|
    ensures |r| == |p|
    ensures forall m :: 0 <= m < |p| ==> r[m] == s[p[m]]
  {
    seq(|p|, m requires 0 <= m < |p| => s[p[m]])
  }

  ghost predicate SortedByAbs(w: seq<real>)
  {
    forall a, b :: 0 <= a < b < |w| ==> Abs(w[a]) <= Abs(w[b])
  }

  // ---------------------------------------------------------------------------
  // The qsort step: order an index array by |w| with the comparator.

  /** |w| of the row that index position `a` points to. */
  function KeyAt(w: seq<real>, p: seq<nat>, a: nat): real
  {
    if a < |p| && p[a] < |w| then Abs(w[p[a]]) else 0.0
  }

  ghost predicate SortedUpTo(w: seq<real>, p: seq<nat>, hi: nat)
  {
    forall a, b :: 0 <= a < b < hi ==> KeyAt(w, p, a) <= KeyAt(w, p, b)
  }

  /** Inside one insertion step: the entry at j is moving left; the prefix
      [0, i] without j is ordered and j is no larger than anything right of it. */
  ghost predicate Sifting(w: seq<real>, p: seq<nat>, i: nat, j: nat)
  {
    && j <= i
    && (forall a, b :: 0 <= a < b <= i && a != j && b != j ==> KeyAt(w, p, a) <= KeyAt(w, p, b))
    && (forall b :: j < b <= i ==> KeyAt(w, p, j) <= KeyAt(w, p, b))
  }

  lemma SiftStep(w: seq<real>, p: seq<nat>, i: nat, j: nat)
    requires 0 < j <= i < |p| && Sifting(w, p, i, j) && KeyAt(w, p, j - 1) > KeyAt(w, p, j)
    ensures Sifting(w, p[j - 1 := p[j]][j := p[j - 1]], i, j - 1)
  {
    var p' := p[j - 1 := p[j]][j := p[j - 1]];
    assert forall a :: 0 <= a < |p| && a != j - 1 && a != j ==> KeyAt(w, p', a) == KeyAt(w, p, a);
    assert KeyAt(w, p', j - 1) == KeyAt(w, p, j) && KeyAt(w, p', j) == KeyAt(w, p, j - 1);
  }

  lemma SiftEnd(w: seq<real>, p: seq<nat>, i: nat, j: nat)
    requires i < |p| && Sifting(w, p, i, j) && (j == 0 || KeyAt(w, p, j - 1) <= KeyAt(w, p, j))
    ensures SortedUpTo(w, p, i + 1)
  {
    forall a, b | 0 <= a < b < i + 1
      ensures KeyAt(w, p, a) <= KeyAt(w, p, b)
    {
      if b == j && a < j - 1 {
        assert KeyAt(w, p, a) <= KeyAt(w, p, j - 1);
      }
    }
  }

  lemma SwapKeepsPermutation(p: seq<nat>, n: nat, a: nat, b: nat)
    requires IsPermutation(p, n) && a < n && b < n
    ensures IsPermutation(p[a := p[b]][b := p[a]], n)
  {
  }

  /** qsort(ptr_w, num_vis, sizeof(void*), compare): returns the pointer
      (index) array ordered by non-decreasing |w|. */
  method SortPointers(ww: array<real>, n: nat) returns (ptr: array<nat>)
    requires n <= ww.Length
    ensures fresh(ptr) && ptr.Length == n
    ensures IsPermutation(ptr[..], n)
    ensures SortedUpTo(ww[..], ptr[..], n)
  {
    ptr := new nat[n](m => m);
    var i := 0;
    while i < n
      invariant 0 <= i <= n
      invariant IsPermutation(ptr[..], n)
      invariant SortedUpTo(ww[..], ptr[..], i)
    {
      var j := i;
      while j > 0 && CompareAbsW(ww[ptr[j - 1]], ww[ptr[j]]) > 0
        invariant 0 <= j <= i
        invariant IsPermutation(ptr[..], n)
        invariant Sifting(ww[..], ptr[..], i, j)
      {
        SiftStep(ww[..], ptr[..], i, j);
        SwapKeepsPermutation(ptr[..], n, j - 1, j);
        ptr[j - 1], ptr[j] := ptr[j], ptr[j - 1];
        j := j - 1;
      }
      SiftEnd(ww[..], ptr[..], i, j);
      i := i + 1;
    }
  }

  // ---------------------------------------------------------------------------
  // The cycle-following loop.
  //
  // While a cycle that starts at position i is being followed, position k is
  // the one about to be filled, the value i is pointed to twice (by i itself
  // once it has been filled, and by the last position of the cycle) and no
  // position points to k.

  ghost predicate InRange(p: seq<nat>, n: nat)
  {
    |p| == n && forall m :: 0 <= m < n ==> p[m] < n
  }

  ghost predicate Cycle(p: seq<nat>, n: nat, i: nat, k: nat)
  {
    && InRange(p, n) && i < n && k < n && p[k] != k
    && (forall m1, m2 :: 0 <= m1 < n && 0 <= m2 < n && m1 != m2 && p[m1] == p[m2] ==>
          (m1 == i || m2 == i) && p[m1] == i)
    && (k != i ==> p[i] == i && forall m :: 0 <= m < n ==> p[m] != k)
  }

  /** Every position m already holds, at position p[m], the row it wants. */
  ghost predicate Placed<T>(x: seq<T>, p: seq<nat>, want: seq<T>, n: nat)
  {
    forall m :: 0 <= m < n ==> m < |p| && m < |want| && p[m] < |x| && x[p[m]] == want[m]
  }

  /** The same while a cycle through i is open and the row taken out of
      position i is held in `temp`. */
  ghost predicate Pending<T>(x: seq<T>, p: seq<nat>, want: seq<T>, n: nat, i: nat, temp: T)
  {
    && |p| == n && n <= |x| && |want| == n && i < n
    && (forall m :: 0 <= m < n && p[m] != i ==> p[m] < |x| && x[p[m]] == want[m])
    && (forall m :: 0 <= m < n && p[m] == i && m != i ==> temp == want[m])
    && (p[i] == i ==> x[i] == want[i])
  }

  /** The only value pointed to twice is i, and one of its two pointers is i. */
  lemma Dup(p: seq<nat>, n: nat, i: nat, k: nat, m1: nat, m2: nat)
    requires Cycle(p, n, i, k) && m1 < n && m2 < n && m1 != m2
    ensures p[m1] == p[m2] ==> (m1 == i || m2 == i) && p[m1] == i
  {
  }

  lemma StartCycle(p: seq<nat>, n: nat, i: nat)
    requires IsPermutation(p, n) && i < n && p[i] != i
    ensures Cycle(p, n, i, i)
  {
  }

  lemma StepCycle(p: seq<nat>, n: nat, i: nat, k: nat)
    requires Cycle(p, n, i, k) && p[k] != i
    ensures Cycle(p[k := k], n, i, p[k])
  {
    var p' := p[k := k];
    var j := p[k];
    forall m1, m2 | 0 <= m1 < n && 0 <= m2 < n && m1 != m2 && p'[m1] == p'[m2]
      ensures (m1 == i || m2 == i) && p'[m1] == i
    {
      if m1 == k {
        assert p[m2] == k;
      } else if m2 == k {
        assert p[m1] == k;
      }
    }
    Dup(p, n, i, k, j, k);
  }

  lemma CloseCycle(p: seq<nat>, n: nat, i: nat, k: nat)
    requires Cycle(p, n, i, k) && p[k] == i
    ensures k != i && IsPermutation(p[k := k], n)
  {
    var p' := p[k := k];
    forall m1, m2 | 0 <= m1 < n && 0 <= m2 < n && m1 != m2
      ensures p'[m1] != p'[m2]
    {
      if m1 != k { Dup(p, n, i, k, m1, k); }
      if m2 != k { Dup(p, n, i, k, m2, k); }
    }
  }

  lemma StartPending<T>(x: seq<T>, p: seq<nat>, want: seq<T>, n: nat, i: nat)
    requires IsPermutation(p, n) && Placed(x, p, want, n) && n <= |x| && |want| == n
    requires i < n && p[i] != i
    ensures Pending(x, p, want, n, i, x[i])
  {
  }

  lemma StepPending<T>(x: seq<T>, p: seq<nat>, want: seq<T>, n: nat, i: nat, k: nat, temp: T)
    requires Cycle(p, n, i, k) && p[k] != i && Pending(x, p, want, n, i, temp)
    ensures Pending(x[k := x[p[k]]], p[k := k], want, n, i, temp)
  {
  }

  lemma ClosePending<T>(x: seq<T>, p: seq<nat>, want: seq<T>, n: nat, i: nat, k: nat, temp: T)
    requires Cycle(p, n, i, k) && p[k] == i && Pending(x, p, want, n, i, temp)
    ensures Placed(x[k := temp], p[k := k], want, n)
  {
    var x' := x[k := temp];
    var p' := p[k := k];
    forall m | 0 <= m < n
      ensures m < |p'| && m < |want| && p'[m] < |x'| && x'[p'[m]] == want[m]
    {
      if m != k { Dup(p, n, i, k, m, k); }
    }
  }

  /** The positions that are not yet fixed points. */
  ghost function NotFixed(p: seq<nat>, n: nat): set<nat>
    requires |p| == n
  {
    set m | 0 <= m < n && p[m] != m
  }

  lemma NotFixedShrinks(p: seq<nat>, n: nat, k: nat)
    requires |p| == n && k < n && p[k] != k
    ensures |NotFixed(p[k := k], n)| < |NotFixed(p, n)|
  {
    assert NotFixed(p[k := k], n) == NotFixed(p, n) - {k};
  }

  /** Five parallel columns of at least n rows, three of them distinct reals. */
  ghost predicate Columns(uu: array<real>, vv: array<real>, ww: array<real>,
                          vis: array<Complex>, weight: array<real>, n: nat)
  {
    && n <= uu.Length && n <= vv.Length && n <= ww.Length && n <= vis.Length && n <= weight.Length
    && uu != vv && uu != ww && vv != ww && uu != weight && vv != weight && ww != weight
  }

  /** One visibility row: the five values the sort moves together. */
  datatype Row = Row(u: real, v: real, w: real, amp: Complex, weight: real)

  /** The first n rows of the five columns, read across. */
  function RowsOf(uu: seq<real>, vv: seq<real>, ww: seq<real>, vis: seq<Complex>, weight: seq<real>,
                        n: nat): (r: seq<Row>)
    requires n <= |uu| && n <= |vv| && n <= |ww| && n <= |vis| && n <= |weight|
    ensures |r| == n
  {
    seq(n, m requires 0 <= m < n => Row(uu[m], vv[m], ww[m], vis[m], weight[m]))
  }

  function RowsOfArrays(uu: array<real>, vv: array<real>, ww: array<real>,
                              vis: array<Complex>, weight: array<real>, n: nat): seq<Row>
    requires Columns(uu, vv, ww, vis, weight, n)
    reads uu, vv, ww, vis, weight
  {
    RowsOf(uu[..], vv[..], ww[..], vis[..], weight[..], n)
  }

  lemma RowsUpdate(uu: seq<real>, vv: seq<real>, ww: seq<real>, vis: seq<Complex>, weight: seq<real>,
                   n: nat, k: nat, r: Row)
    requires n <= |uu| && n <= |vv| && n <= |ww| && n <= |vis| && n <= |weight| && k < n
    ensures RowsOf(uu[k := r.u], vv[k := r.v], ww[k := r.w], vis[k := r.amp], weight[k := r.weight], n)
         == RowsOf(uu, vv, ww, vis, weight, n)[k := r]
  {
  }

  /** Writes row r at position k of every column. */
  method PutRow(uu: array<real>, vv: array<real>, ww: array<real>,
                vis: array<Complex>, weight: array<real>, n: nat, k: nat, r: Row)
    requires Columns(uu, vv, ww, vis, weight, n) && k < n
    modifies uu, vv, ww, vis, weight
    ensures RowsOfArrays(uu, vv, ww, vis, weight, n) == old(RowsOfArrays(uu, vv, ww, vis, weight, n))[k := r]
    ensures uu[n..] == old(uu[n..]) && vv[n..] == old(vv[n..]) && ww[n..] == old(ww[n..])
    ensures vis[n..] == old(vis[n..]) && weight[n..] == old(weight[n..])
  {
    RowsUpdate(uu[..], vv[..], ww[..], vis[..], weight[..], n, k, r);
    TailKept(uu[..], n, k, r.u);
    TailKept(vv[..], n, k, r.v);
    TailKept(ww[..], n, k, r.w);
    TailKept(vis[..], n, k, r.amp);
    TailKept(weight[..], n, k, r.weight);
    uu[k] := r.u;
    vv[k] := r.v;
    ww[k] := r.w;
    vis[k] := r.amp;
    weight[k] := r.weight;
  }

  lemma TailKept<T>(x: seq<T>, n: nat, k: nat, v: T)
    requires k < n <= |x|
    ensures x[k := v][n..] == x[n..]
  {
  }

  /** One step along an open cycle through i: position k takes the row
      of position ptr[k] and becomes a fixed point, and the walk moves on
      to ptr[k]. */
  method CycleStep(uu: array<real>, vv: array<real>, ww: array<real>,
                   vis: array<Complex>, weight: array<real>, ptr: array<nat>, n: nat, i: nat, k: nat,
                   ghost want: seq<Row>, ghost temp: Row) returns (next: nat)
    requires Columns(uu, vv, ww, vis, weight, n)
    requires Cycle(ptr[..], n, i, k) && ptr[k] != i
    requires forall m :: 0 <= m < i ==> ptr[m] == m
    requires Pending(RowsOfArrays(uu, vv, ww, vis, weight, n), ptr[..], want, n, i, temp)
    modifies uu, vv, ww, vis, weight, ptr
    ensures next == old(ptr[k]) && Cycle(ptr[..], n, i, next)
    ensures forall m :: 0 <= m < i ==> ptr[m] == m
    ensures Pending(RowsOfArrays(uu, vv, ww, vis, weight, n), ptr[..], want, n, i, temp)
    ensures |ptr[..]| == n && |NotFixed(ptr[..], n)| < old(|NotFixed(ptr[..], n)|)
    ensures uu[n..] == old(uu[n..]) && vv[n..] == old(vv[n..]) && ww[n..] == old(ww[n..])
    ensures vis[n..] == old(vis[n..]) && weight[n..] == old(weight[n..])
  {
    var j := ptr[k];
    StepCycle(ptr[..], n, i, k);
    StepPending(RowsOfArrays(uu, vv, ww, vis, weight, n), ptr[..], want, n, i, k, temp);
    NotFixedShrinks(ptr[..], n, k);
    PutRow(uu, vv, ww, vis, weight, n, k, Row(uu[j], vv[j], ww[j], vis[j], weight[j]));
    ptr[k] := k;
    next := j;
  }

  /** The body of the outer loop for a position i that is not yet a fixed
      point: follows the cycle through i until every position on it holds
      its row, and marks those positions as fixed. */
  method FollowCycle(uu: array<real>, vv: array<real>, ww: array<real>,
                     vis: array<Complex>, weight: array<real>, ptr: array<nat>, n: nat, i: nat,
                     ghost want: seq<Row>)
    requires Columns(uu, vv, ww, vis, weight, n)
    requires IsPermutation(ptr[..], n) && i < n && ptr[i] != i
    requires forall m :: 0 <= m < i ==> ptr[m] == m
    requires |want| == n && Placed(RowsOfArrays(uu, vv, ww, vis, weight, n), ptr[..], want, n)
    modifies uu, vv, ww, vis, weight, ptr
    ensures IsPermutation(ptr[..], n)
    ensures forall m :: 0 <= m <= i ==> ptr[m] == m
    ensures Placed(RowsOfArrays(uu, vv, ww, vis, weight, n), ptr[..], want, n)
    ensures uu[n..] == old(uu[n..]) && vv[n..] == old(vv[n..]) && ww[n..] == old(ww[n..])
    ensures vis[n..] == old(vis[n..]) && weight[n..] == old(weight[n..])
  {
    var temp := Row(uu[i], vv[i], ww[i], vis[i], weight[i]);
    StartCycle(ptr[..], n, i);
    StartPending(RowsOfArrays(uu, vv, ww, vis, weight, n), ptr[..], want, n, i);
    var k := i;
    var j := ptr[k];
    while i != j
      invariant Cycle(ptr[..], n, i, k) && j == ptr[k]
      invariant forall m :: 0 <= m < i ==> ptr[m] == m
      invariant Pending(RowsOfArrays(uu, vv, ww, vis, weight, n), ptr[..], want, n, i, temp)
      invariant uu[n..] == old(uu[n..]) && vv[n..] == old(vv[n..]) && ww[n..] == old(ww[n..])
      invariant vis[n..] == old(vis[n..]) && weight[n..] == old(weight[n..])
      decreases |NotFixed(ptr[..], n)|
    {
      k := CycleStep(uu, vv, ww, vis, weight, ptr, n, i, k, want, temp);
      j := ptr[k];
    }
    CloseCycle(ptr[..], n, i, k);
    ClosePending(RowsOfArrays(uu, vv, ww, vis, weight, n), ptr[..], want, n, i, k, temp);
    PutRow(uu, vv, ww, vis, weight, n, k, temp);
    ptr[k] := k;
  }

  /** Once every position is a fixed point, each column is the permuted input. */
  lemma PlacedIsPermuted(uu: seq<real>, vv: seq<real>, ww: seq<real>, vis: seq<Complex>, weight: seq<real>,
                         U: seq<real>, V: seq<real>, W: seq<real>, A: seq<Complex>, H: seq<real>,
                         p: seq<nat>, perm: seq<nat>, n: nat)
    requires n <= |uu| && n <= |vv| && n <= |ww| && n <= |vis| && n <= |weight|
    requires n <= |U| && n <= |V| && n <= |W| && n <= |A| && n <= |H|
    requires |perm| == n && |p| == n && forall m :: 0 <= m < n ==> perm[m] < n
    requires forall m :: 0 <= m < n ==> p[m] == m
    requires Placed(RowsOf(uu, vv, ww, vis, weight, n), p, Permute(RowsOf(U, V, W, A, H, n), perm), n)
    ensures uu[..n] == Permute(U[..n], perm) && vv[..n] == Permute(V[..n], perm)
    ensures ww[..n] == Permute(W[..n], perm) && vis[..n] == Permute(A[..n], perm)
    ensures weight[..n] == Permute(H[..n], perm)
  {
    var want := Permute(RowsOf(U, V, W, A, H, n), perm);
    assert forall m :: 0 <= m < n ==> RowsOf(uu, vv, ww, vis, weight, n)[m] == want[m];
  }

  lemma PermutedSorted(w: seq<real>, perm: seq<nat>, n: nat)
    requires n <= |w| && IsPermutation(perm, n) && SortedUpTo(w, perm, n)
    ensures SortedByAbs(Permute(w[..n], perm))
  {
    var s := Permute(w[..n], perm);
    forall a, b | 0 <= a < b < |s|
      ensures Abs(s[a]) <= Abs(s[b])
    {
      assert KeyAt(w, perm, a) <= KeyAt(w, perm, b);
    }
  }

  /** oskar_imager_sort_by_abs_w. Nothing happens when the status is set or there
      are no visibilities; otherwise the first `numVis` rows of all five arrays
      are reordered by one permutation `perm`, which leaves |w| non-decreasing.
      Elements past `numVis` are untouched. */
  method SortByAbsW(status: Status, numVis: nat,
                    uu: array<real>, vv: array<real>, ww: array<real>,
                    vis: array<Complex>, weight: array<real>)
      returns (ghost perm: seq<nat>)
    requires Columns(uu, vv, ww, vis, weight, numVis)
    modifies uu, vv, ww, vis, weight
    ensures status.IsError() || numVis == 0 ==>
      uu[..] == old(uu[..]) && vv[..] == old(vv[..]) && ww[..] == old(ww[..]) &&
      vis[..] == old(vis[..]) && weight[..] == old(weight[..])
    ensures !status.IsError() && numVis > 0 ==>
      && IsPermutation(perm, numVis)
      && uu[..numVis] == Permute(old(uu[..numVis]), perm)
      && vv[..numVis] == Permute(old(vv[..numVis]), perm)
      && ww[..numVis] == Permute(old(ww[..numVis]), perm)
      && vis[..numVis] == Permute(old(vis[..numVis]), perm)
      && weight[..numVis] == Permute(old(weight[..numVis]), perm)
      && SortedByAbs(ww[..numVis])
    ensures uu[numVis..] == old(uu[numVis..]) && vv[numVis..] == old(vv[numVis..])
    ensures ww[numVis..] == old(ww[numVis..]) && vis[numVis..] == old(vis[numVis..])
    ensures weight[numVis..] == old(weight[numVis..])
  {
    perm := [];
    if status.IsError() || numVis == 0 { return; }
    var n := numVis;
    var ptr := SortPointers(ww, n);
    perm := ptr[..];
    ghost var U, V, W, A, H := uu[..], vv[..], ww[..], vis[..], weight[..];
    ghost var want := Permute(RowsOf(U, V, W, A, H, n), perm);
    PermutedSorted(W, perm, n);
    var i := 0;
    while i < n
      invariant 0 <= i <= n
      invariant IsPermutation(ptr[..], n)
      invariant forall m :: 0 <= m < i ==> ptr[m] == m
      invariant Placed(RowsOfArrays(uu, vv, ww, vis, weight, n), ptr[..], want, n)
      invariant uu[n..] == U[n..] && vv[n..] == V[n..] && ww[n..] == W[n..]
      invariant vis[n..] == A[n..] && weight[n..] == H[n..]
    {
      if i != ptr[i] {
        FollowCycle(uu, vv, ww, vis, weight, ptr, n, i, want);
      }
      i := i + 1;
    }
    PlacedIsPermuted(uu[..], vv[..], ww[..], vis[..], weight[..], U, V, W, A, H, ptr[..], perm, n);
  }
}
