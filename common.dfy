/** Shared vocabulary of the OSKAR model: the status protocol, optional values,
    complex numbers, numeric precision tags and a reallocatable real buffer. */
module Common {

  /** OSKAR's integer status codes. `Success` is 0; every other value is a fault
      that turns every later call sharing the status into a no-op. `OtherError`
      stands for codes produced by collaborators that are not part of this model. */
  datatype Status =
    | Success
    | InvalidArgument
    | FileIO
    | MemoryNotAllocated
    | MemoryAllocFailure
    | FunctionNotAvailable
    | DimensionMismatch
    | ValueMismatch
    | BadDataType
    | BinaryTagNotFound
    | OtherError(code: int)
  {
    predicate IsError() { !Success? }
  }

  datatype Option<T> = None | Some(value: T)

  datatype Complex = Complex(re: real, im: real)

  const Zero: Complex := Complex(0.0, 0.0)

  /** Numeric precision of an oskar_Mem buffer. */
  datatype Precision = Single | Double | Int | Char | OtherPrecision(code: int)

  /** An element type of an oskar_Mem buffer: a precision plus the complex and
      matrix flags that OSKAR ORs into its type code. */
  datatype MemType = MemType(precision: Precision, complex: bool, matrix: bool)

  function Abs(x: real): (r: real)
    ensures r >= 0.0
    ensures r == x || r == -x
  {
    if x < 0.0 then -x else x
  }

  function Min(a: int, b: int): int { if a < b then a else b }

  function Max(a: int, b: int): int { if a < b then b else a }

  /** The flat index of element k of group i when every group has n
      elements (n * i + k). */
  function Flat(n: nat, i: nat, k: nat): nat
  {
    n * i + k
  }

  lemma FlatInRange(m: nat, n: nat, i: nat, k: nat)
    requires i < m && k < n
    ensures Flat(n, i, k) < m * n
  {
    assert n * i + k < n * (i + 1);
    assert n * (i + 1) <= n * m;
  }

  lemma NatProduct(a: nat, b: nat)
    ensures a * b >= 0
  {
  }

  lemma NonPositiveProduct(a: int, b: nat)
    ensures a <= 0 ==> a * b <= 0
  {
  }

  lemma MulMonotone(n: nat, a: nat, b: nat)
    requires a <= b
    ensures n * a <= n * b
  {
    assert n * b == n * a + n * (b - a);
  }

  lemma MulStrictCancel(n: nat, a: nat, b: nat)
    requires n * a < n * b
    ensures a < b
  {
    if b <= a {
      MulMonotone(n, b, a);
    }
  }

  lemma FlatInjective(n: nat, i1: nat, k1: nat, i2: nat, k2: nat)
    requires k1 < n && k2 < n
    requires Flat(n, i1, k1) == Flat(n, i2, k2)
    ensures i1 == i2 && k1 == k2
  {
    assert n * i1 < n * (i2 + 1);
    assert n * i2 < n * (i1 + 1);
    MulStrictCancel(n, i1, i2 + 1);
    MulStrictCancel(n, i2, i1 + 1);
  }

  /** Distinct (group, element) pairs have distinct flat indices. */
  lemma FlatUnique(n: nat)
    ensures forall i1: nat, k1: nat, i2: nat, k2: nat :: k1 < n && k2 < n && Flat(n, i1, k1) == Flat(n, i2, k2) ==>
      i1 == i2 && k1 == k2
  {
    forall i1: nat, k1: nat, i2: nat, k2: nat | k1 < n && k2 < n && Flat(n, i1, k1) == Flat(n, i2, k2)
      ensures i1 == i2 && k1 == k2
    {
      FlatInjective(n, i1, k1, i2, k2);
    }
  }

  /** A flat index of a range of m groups recovers its group and element by
      division and remainder. */
  lemma FlatOnto(m: nat, n: nat, j: nat)
    requires j < m * n
    ensures n > 0 && j / n < m && j % n < n
    ensures Flat(n, j / n, j % n) == j
  {
    assert n != 0;
    assert n * (j / n) < n * m;
    MulStrictCancel(n, j / n, m);
  }

  /** Every index in group i's range [n * i, n * i + n) lies in group i. */
  lemma DivInGroup(n: nat, i: nat, j: nat)
    requires n * i <= j < n * i + n
    ensures j / n == i && j % n == j - n * i
  {
    assert n != 0;
    var q := j / n;
    assert n * q <= j < n * q + n;
    assert n * q < n * (i + 1);
    assert n * i < n * (q + 1);
    MulStrictCancel(n, q, i + 1);
    MulStrictCancel(n, i, q + 1);
  }

  // ---------------------------------------------------------------------
  // Stopping at the first failure: a loop that breaks as soon as a step
  // sets the shared status

  /** The calls made when a run of calls stops after the first one that
      sets the status. */
  function UntilFailure<T>(calls: seq<T>, step: T -> Status): (r: seq<T>)
    ensures r <= calls
  {
    if |calls| == 0 then []
    else if step(calls[0]).IsError() then [calls[0]]
    else [calls[0]] + UntilFailure(calls[1..], step)
  }

  /** The status after the run: that of the first failing call, if any. */
  function FirstFailure<T>(calls: seq<T>, step: T -> Status): Status
  {
    if |calls| == 0 then Success
    else if step(calls[0]).IsError() then step(calls[0])
    else FirstFailure(calls[1..], step)
  }

  /** The status is set iff some call fails. */
  lemma {:induction false} FirstFailureAny<T>(calls: seq<T>, step: T -> Status)
    ensures FirstFailure(calls, step).IsError() <==> exists i :: 0 <= i < |calls| && step(calls[i]).IsError()
  {
    if |calls| > 0 {
      FirstFailureAny(calls[1..], step);
      assert forall i :: 1 <= i < |calls| ==> calls[i] == calls[1..][i - 1];
    }
  }

  /** The run stops exactly at the first failure: every call before the
      last one succeeded, and the last one failed iff the status is set. */
  lemma {:induction false} UntilFailureStops<T>(calls: seq<T>, step: T -> Status)
    ensures var r := UntilFailure(calls, step);
      && (forall i :: 0 <= i < |r| - 1 ==> !step(r[i]).IsError())
      && (FirstFailure(calls, step).IsError() <==> |r| > 0 && step(r[|r| - 1]).IsError())
      && (FirstFailure(calls, step).IsError() ==> FirstFailure(calls, step) == step(r[|r| - 1]))
      && (!FirstFailure(calls, step).IsError() ==> r == calls)
  {
    if |calls| > 0 && !step(calls[0]).IsError() {
      UntilFailureStops(calls[1..], step);
      var rest := UntilFailure(calls[1..], step);
      assert UntilFailure(calls, step) == [calls[0]] + rest;
      forall i | 0 <= i < |rest| ensures ([calls[0]] + rest)[i + 1] == rest[i] {
      }
    }
  }

  lemma {:induction false} UntilFailureAppend<T>(a: seq<T>, b: seq<T>, step: T -> Status)
    ensures UntilFailure(a + b, step) ==
      if FirstFailure(a, step).IsError() then UntilFailure(a, step) else a + UntilFailure(b, step)
    ensures FirstFailure(a + b, step) ==
      if FirstFailure(a, step).IsError() then FirstFailure(a, step) else FirstFailure(b, step)
  {
    if |a| > 0 {
      assert (a + b)[0] == a[0];
      assert (a + b)[1..] == a[1..] + b;
      UntilFailureAppend(a[1..], b, step);
    } else {
      assert a + b == b;
    }
  }

  lemma AppendAssoc<T>(a: seq<T>, b: seq<T>, c: seq<T>)
    ensures a + b + c == a + (b + c)
  {
  }

  /** A fail-fast loop over plan entered with status: nothing happens when
      the status is already set; otherwise the calls up to the first
      failure and the status they leave. */
  function RunFrom<T>(status: Status, plan: seq<T>, step: T -> Status): (seq<T>, Status)
  {
    if status.IsError() then ([], status) else (UntilFailure(plan, step), FirstFailure(plan, step))
  }

  /** The loop makes a leading part of the plan; its status stays clear
      exactly when it was clear on entry and no call of the plan fails,
      and then the whole plan is made. */
  lemma RunFromClear<T>(status: Status, plan: seq<T>, step: T -> Status)
    ensures RunFrom(status, plan, step).0 <= plan
    ensures !RunFrom(status, plan, step).1.IsError() <==>
      (!status.IsError() && forall x :: x in plan ==> !step(x).IsError())
    ensures !RunFrom(status, plan, step).1.IsError() ==> RunFrom(status, plan, step).0 == plan
  {
    UntilFailureStops(plan, step);
    FirstFailureAny(plan, step);
  }

  /** While no call of the plan has failed, one more call is made and its
      status is the loop's. */
  lemma RunFromNext<T>(status: Status, plan: seq<T>, x: T, step: T -> Status)
    requires !RunFrom(status, plan, step).1.IsError()
    ensures RunFrom(status, plan, step).0 == plan
    ensures RunFrom(status, plan + [x], step) == (plan + [x], step(x))
  {
    UntilFailureStops(plan, step);
    UntilFailureAppend(plan, [x], step);
    assert [x][1..] == [];
    assert UntilFailure([x], step) == [x];
    assert FirstFailure([x], step) == step(x);
  }

  /** Once a call has failed, the rest of the plan changes nothing. */
  lemma RunFromDone<T>(status: Status, plan: seq<T>, whole: seq<T>, step: T -> Status)
    requires plan <= whole && RunFrom(status, plan, step).1.IsError()
    ensures RunFrom(status, whole, step) == RunFrom(status, plan, step)
  {
    assert whole == plan + whole[|plan|..];
    UntilFailureAppend(plan, whole[|plan|..], step);
  }

  /** A host buffer of reals whose length may change (oskar_Mem used as a
      resizable array of one component per element). */
  class RealBuffer {
    var data: array<real>

    constructor (n: nat)
      ensures data.Length == n && fresh(data)
    {
      data := new real[n](_ => 0.0);
    }

    /** oskar_mem_realloc: afterwards the buffer holds exactly `n` elements and
        keeps its leading elements. */
    method Realloc(n: nat)
      modifies this
      ensures data.Length == n && fresh(data)
      ensures forall i :: 0 <= i < n && i < old(data.Length) ==> data[i] == old(data[i])
    {
      var old_data := data;
      var a := new real[n](i reads old_data => if 0 <= i < old_data.Length then old_data[i] else 0.0);
      data := a;
    }
  }
}
