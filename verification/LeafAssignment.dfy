/** Spreading the attaching backends over the leaves of the communication tree. */
module LeafAssignment {

  const INT_MAX := 0x7fff_ffff
  const SIZE_RANGE := 0x1_0000_0000_0000_0000

  // -------------------------------------------------------- division, stepwise

  lemma QuotientIs(a: nat, b: nat, q: nat)
    requires b > 0 && q * b <= a < (q + 1) * b
    ensures a / b == q
  {
    var p := a / b;
    assert p * b <= a < (p + 1) * b;
    if p < q {
      Scale(p + 1, q, b);
    } else if p > q {
      Scale(q + 1, p, b);
    }
  }

  lemma Scale(x: nat, y: nat, b: nat)
    requires x <= y
    ensures x * b <= y * b
  {
  }

  lemma QuotientBounds(a: nat, b: nat)
    requires b > 0
    ensures (a / b) * b <= a < (a / b + 1) * b
  {
  }

  /** The first backend of leaf l: l * count / leaves, rounded up. */
  function First(l: nat, leaves: nat, count: nat): nat
    requires leaves > 0
  {
    (l * count + leaves - 1) / leaves
  }

  lemma FirstBounds(l: nat, leaves: nat, count: nat)
    requires leaves > 0
    ensures l * count <= First(l, leaves, count) * leaves < l * count + leaves
  {
    QuotientBounds(l * count + leaves - 1, leaves);
    var f := First(l, leaves, count);
    assert (f + 1) * leaves == f * leaves + leaves;
  }

  /** Backend i goes to leaf l exactly if it lies between the first backends of
      leaf l and of leaf l + 1. */
  lemma LeafInterval(i: nat, l: nat, leaves: nat, count: nat)
    requires leaves > 0 && count > 0
    ensures i * leaves / count == l <==> First(l, leaves, count) <= i < First(l + 1, leaves, count)
  {
    var low, high := First(l, leaves, count), First(l + 1, leaves, count);
    FirstBounds(l, leaves, count);
    FirstBounds(l + 1, leaves, count);
    QuotientBounds(i * leaves, count);
    assert (i + 1) * leaves == i * leaves + leaves;
    if low <= i < high {
      Scale(low, i, leaves);
      Scale(i + 1, high, leaves);
      QuotientIs(i * leaves, count, l);
    }
    if i * leaves / count == l {
      assert l * count <= i * leaves < (l + 1) * count;
      if i < low {
        Scale(i + 1, low, leaves);
      }
      if high <= i {
        Scale(high, i, leaves);
      }
    }
  }

  predicate FairShare(share: nat, leaves: nat, count: nat)
    requires leaves > 0
  {
    share == count / leaves || (share == count / leaves + 1 && count % leaves != 0)
  }

  /** Consecutive first backends are floor or ceiling of count / leaves apart. */
  lemma IntervalLength(l: nat, leaves: nat, count: nat)
    requires leaves > 0
    ensures var share := First(l + 1, leaves, count) - First(l, leaves, count);
            share >= 0 && FairShare(share, leaves, count)
  {
    var low, q, r := First(l, leaves, count), count / leaves, count % leaves;
    FirstBounds(l, leaves, count);
    assert count == q * leaves + r;
    var top := (l + 1) * count + leaves - 1;
    assert (l + 1) * count == l * count + count;
    var slack := low * leaves - l * count;
    var next := if slack < r then low + q + 1 else low + q;
    assert (low + q) * leaves == low * leaves + q * leaves;
    assert (low + q + 1) * leaves == low * leaves + q * leaves + leaves;
    assert (low + q + 2) * leaves == low * leaves + q * leaves + 2 * leaves;
    assert next * leaves <= top < (next + 1) * leaves;
    QuotientIs(top, leaves, next);
  }

  /** The numbers from low up to, not including, high. */
  ghost function Interval(low: nat, high: nat): (r: set<nat>)
    requires low <= high
    ensures |r| == high - low
    ensures forall i :: i in r <==> low <= i < high
    decreases high - low
  {
    if low == high then {} else Interval(low, high - 1) + {high - 1}
  }

  ghost function BackendsOf(leafOf: seq<nat>, l: nat): set<nat> {
    set i | 0 <= i < |leafOf| && leafOf[i] == l
  }

  /** Every leaf gets its fair share: floor or ceiling of count / leaves. */
  lemma Balanced(leafOf: seq<nat>, leaves: nat, l: nat)
    requires leaves > 0 && |leafOf| > 0 && l < leaves
    requires forall i :: 0 <= i < |leafOf| ==> leafOf[i] == i * leaves / |leafOf|
    ensures FairShare(|BackendsOf(leafOf, l)|, leaves, |leafOf|)
  {
    var count := |leafOf|;
    var low, high := First(l, leaves, count), First(l + 1, leaves, count);
    IntervalLength(l, leaves, count);
    LastInterval(l, leaves, count);
    Ascends(l, leaves, count);
    forall i | 0 <= i < count ensures leafOf[i] == l <==> low <= i < high {
      LeafInterval(i, l, leaves, count);
    }
    assert BackendsOf(leafOf, l) == Interval(low, high);
  }

  lemma LastInterval(l: nat, leaves: nat, count: nat)
    requires leaves > 0 && l < leaves
    ensures First(l + 1, leaves, count) <= count
  {
    FirstBounds(l + 1, leaves, count);
    Scale(l + 1, leaves, count);
    assert (count + 1) * leaves == count * leaves + leaves;
    if First(l + 1, leaves, count) > count {
      Scale(count + 1, First(l + 1, leaves, count), leaves);
    }
  }

  lemma Ascends(l: nat, leaves: nat, count: nat)
    requires leaves > 0
    ensures First(l, leaves, count) <= First(l + 1, leaves, count)
  {
    IntervalLength(l, leaves, count);
  }

  lemma LeafInRange(i: nat, leaves: nat, count: nat)
    requires i < count && 0 < leaves
    ensures i * leaves / count < leaves
  {
    QuotientBounds(i * leaves, count);
    Scale(i + 1, count, leaves);
    assert (i + 1) * leaves == i * leaves + leaves;
    if i * leaves / count >= leaves {
      Scale(leaves, i * leaves / count, count);
    }
  }

  lemma LeavesAscend(i: nat, leaves: nat, count: nat)
    requires 0 < count
    ensures i * leaves / count <= (i + 1) * leaves / count
  {
    var here, there := i * leaves / count, (i + 1) * leaves / count;
    QuotientBounds(i * leaves, count);
    QuotientBounds((i + 1) * leaves, count);
    Scale(i, i + 1, leaves);
    if there < here {
      Scale(there + 1, here, count);
    }
  }

  lemma NoWrap(i: nat, leaves: nat)
    requires i <= INT_MAX && leaves <= INT_MAX
    ensures i * leaves < SIZE_RANGE
  {
    Scale(i, INT_MAX, leaves);
    Scale(leaves, INT_MAX, INT_MAX);
  }

  /** The loop of the attach launcher. The counter is an `int`, the product is
      taken in `size_t`, and the leaf index is an `int` again: within the stated
      widths nothing wraps or is cut off. */
  method AssignBackends(leaves: nat, count: nat) returns (leafOf: seq<nat>)
    requires count <= INT_MAX && leaves <= INT_MAX
    requires count > 0 ==> leaves > 0
    ensures |leafOf| == count
    ensures forall i :: 0 <= i < count ==> leafOf[i] == i * leaves / count && leafOf[i] < leaves
  {
    leafOf := [];
    for i := 0 to count
      invariant |leafOf| == i
      invariant forall k :: 0 <= k < i ==> leafOf[k] == k * leaves / count && leafOf[k] < leaves
    {
      LeafInRange(i, leaves, count);
      NoWrap(i, leaves);
      var l := (i * leaves) % SIZE_RANGE / count;
      leafOf := leafOf + [l];
    }
  }

  /** The assignment is monotone, and fair to every leaf. */
  lemma AssignmentIsFair(leafOf: seq<nat>, leaves: nat)
    requires leaves > 0 && |leafOf| > 0
    requires forall i :: 0 <= i < |leafOf| ==> leafOf[i] == i * leaves / |leafOf|
    ensures forall i :: 0 < i < |leafOf| ==> leafOf[i - 1] <= leafOf[i]
    ensures forall l :: 0 <= l < leaves ==> FairShare(|BackendsOf(leafOf, l)|, leaves, |leafOf|)
  {
    forall i | 0 < i < |leafOf| ensures leafOf[i - 1] <= leafOf[i] {
      LeavesAscend(i - 1, leaves, |leafOf|);
    }
    forall l | 0 <= l < leaves ensures FairShare(|BackendsOf(leafOf, l)|, leaves, |leafOf|) {
      Balanced(leafOf, leaves, l);
    }
  }
}
