/** Capacity amounts per dimension (crates/kernel/src/types.rs). A missing
    dimension means zero. */
module Quantities {

  /** Dimension names are interned: equal numbers are equal names. */
  type Dimension = nat
  type Quantity = map<Dimension, nat>

  const COUNT: Dimension := 0
  const BYTES: Dimension := 1

  function Get(q: Quantity, d: Dimension): nat {
    if d in q then q[d] else 0
  }

  predicate Le(left: Quantity, right: Quantity) {
    forall d :: d in left ==> left[d] <= Get(right, d)
  }

  function SatSub(left: Quantity, right: Quantity): Quantity {
    map d | d in left && left[d] > Get(right, d) :: left[d] - Get(right, d)
  }

  function Max(left: Quantity, right: Quantity): Quantity {
    map d | d in left.Keys + right.Keys :: if Get(left, d) < Get(right, d) then Get(right, d) else Get(left, d)
  }

  function Add(left: Quantity, right: Quantity): Quantity {
    map d | d in left.Keys + right.Keys :: Get(left, d) + Get(right, d)
  }

  method SaturatingSub(left: Quantity, right: Quantity) returns (out: Quantity)
    ensures out == SatSub(left, right)
  {
    out := map[];
    var todo := left.Keys;
    while todo != {}
      invariant todo <= left.Keys
      invariant out == map d | d in left && d !in todo && left[d] > Get(right, d) :: left[d] - Get(right, d)
    {
      var d :| d in todo;
      if left[d] > Get(right, d) {
        out := out[d := left[d] - Get(right, d)];
      }
      todo := todo - {d};
    }
  }

  method Maximum(left: Quantity, right: Quantity) returns (out: Quantity)
    ensures out == Max(left, right)
  {
    out := left;
    var todo := right.Keys;
    while todo != {}
      invariant todo <= right.Keys
      invariant out.Keys == left.Keys + (right.Keys - todo)
      invariant forall d :: d in out ==> out[d] == if d in right.Keys - todo then Max(left, right)[d] else Get(left, d)
    {
      var d :| d in todo;
      if Get(out, d) < right[d] {
        out := out[d := right[d]];
      } else {
        out := out[d := Get(out, d)];
      }
      todo := todo - {d};
    }
  }

  method AddAssign(left: Quantity, right: Quantity) returns (out: Quantity)
    ensures out == Add(left, right)
  {
    out := left;
    var todo := right.Keys;
    while todo != {}
      invariant todo <= right.Keys
      invariant out.Keys == left.Keys + (right.Keys - todo)
      invariant forall d :: d in out ==> out[d] == Get(left, d) + if d in right.Keys - todo then right[d] else 0
    {
      var d :| d in todo;
      out := out[d := Get(out, d) + right[d]];
      todo := todo - {d};
    }
  }

  /** The saturating comparison the scheduler and the kernel both use admits an
      amount exactly when it is zero or fits beside what is already taken. */
  lemma FitsInRemaining(want: Quantity, capacity: Quantity, used: Quantity)
    ensures Le(want, SatSub(capacity, used)) <==>
            forall d :: d in want ==> want[d] == 0 || Get(used, d) + want[d] <= Get(capacity, d)
  {
  }
}
