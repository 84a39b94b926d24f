/** The token balancer: a weighted binary split of a budget down the tree,
    per-leaf allocation records, and partial and full rebalancing. */
module Balancing {
  import opened Nodes
  import opened Trees
  import opened Weights
  import opened Values

  /** `_get_node_weight` seen as a lookup: a node without an entry has the default weight. */
  function WeightOf(weights: map<string, NodeWeight>, id: string): NodeWeight {
    if id in weights then weights[id] else DefaultWeight
  }

  /** The leaf weights the split uses: each node's combined weight factor. */
  function WeightView(weights: map<string, NodeWeight>): string -> real {
    id => TotalWeight(WeightOf(weights, id))
  }

  /** `_calculate_weight`: the sum of the leaf weights below a node (the weight
      cache is never valid when it is consulted, so every call recomputes). */
  function SubtreeWeight(t: Tree, wt: string -> real): real {
    match t
    case Leaf(n) => wt(n.Id())
    case Node(_, l, r) => SubtreeWeight(l, wt) + SubtreeWeight(r, wt)
  }

  /** Every leaf of `t` has a non-negative weight under `wt`. */
  predicate NonNegativeLeafWeights(t: Tree, wt: string -> real) {
    forall id :: id in LeafIdSet(t) ==> wt(id) >= 0.0
  }

  /** Python's `int(x)` on a float: truncation toward zero. */
  function Trunc(x: real): int {
    if x >= 0.0 then x.Floor else -((-x).Floor)
  }

  /** `Trunc` drops the fractional part and keeps the sign. */
  lemma TruncTowardZero(x: real)
    ensures x >= 0.0 ==> 0 <= Trunc(x) && Trunc(x) as real <= x < Trunc(x) as real + 1.0
    ensures x < 0.0 ==> Trunc(x) <= 0 && Trunc(x) as real - 1.0 < x <= Trunc(x) as real
  {
  }

  /** The fraction of a budget the left child receives; a zero total weight is
      replaced by 1 to avoid dividing by zero. */
  function LeftFraction(lw: real, rw: real): real {
    var tw := if lw + rw == 0.0 then 1.0 else lw + rw;
    lw / tw
  }

  /** `int(available_budget * (left_weight / total_weight))`. */
  function LeftShare(budget: int, lw: real, rw: real): int {
    Trunc(budget as real * LeftFraction(lw, rw))
  }

  /** How much of a budget goes to the left subtree, given the two subtree weights. */
  type SplitRule = (int, real, real) -> int

  /** The budget each leaf of `t` ends with when `budget` is split down from `t`
      by `split` at every internal node. */
  function Shares(t: Tree, budget: int, wt: string -> real, split: SplitRule): map<string, int> {
    match t
    case Leaf(n) => map[n.Id() := budget]
    case Node(_, l, r) =>
      var lb := split(budget, SubtreeWeight(l, wt), SubtreeWeight(r, wt));
      Shares(l, lb, wt, split) + Shares(r, budget - lb, wt, split)
  }

  /** The shares `_distribute` computes from the balancer's weight table. */
  function BalancedShares(t: Tree, budget: int, weights: map<string, NodeWeight>): map<string, int> {
    Shares(t, budget, WeightView(weights), LeftShare)
  }

  /** A split rule that never gives either side less than 0 or more than the budget. */
  ghost predicate WithinBudget(split: SplitRule) {
    forall b: int, lw: real, rw: real :: 0 <= b && 0.0 <= lw && 0.0 <= rw ==> 0 <= split(b, lw, rw) <= b
  }

  /** A split rule under which more budget, or more weight on one's own side,
      never gives that side less. */
  ghost predicate FollowsWeight(split: SplitRule) {
    && (forall b1: int, b2: int, lw1: real, lw2: real, rw: real ::
          0 <= b1 <= b2 && 0.0 <= lw1 <= lw2 && 0.0 <= rw ==> split(b1, lw1, rw) <= split(b2, lw2, rw))
    && (forall b1: int, b2: int, lw: real, rw1: real, rw2: real ::
          0 <= b1 <= b2 && 0.0 <= lw && 0.0 <= rw1 <= rw2 ==> b1 - split(b1, lw, rw1) <= b2 - split(b2, lw, rw2))
  }

  /** Fresh allocation records (nothing consumed yet) for a share map. */
  function Records(shares: map<string, int>): map<string, AllocationRecord> {
    map id | id in shares :: AllocationRecord(shares[id], 0)
  }

  /** The `{k: v.allocated}` view `balance_tokens` and the rebalancers return. */
  function Granted(allocations: map<string, AllocationRecord>): map<string, int> {
    map id | id in allocations :: allocations[id].granted
  }

  /** `get_allocation`: the recorded allocation, 0 for a node without a record. */
  function AllocationOf(allocations: map<string, AllocationRecord>, id: string): int {
    if id in allocations then allocations[id].granted else 0
  }

  /** `_get_subtree_budget`: the allocations recorded for the leaves below `t`. */
  function SubtreeBudget(t: Tree, allocations: map<string, AllocationRecord>): int {
    match t
    case Leaf(n) => AllocationOf(allocations, n.Id())
    case Node(_, l, r) => SubtreeBudget(l, allocations) + SubtreeBudget(r, allocations)
  }

  /** `record_consumption`: adds to the consumed count of an existing record;
      a node without a record is ignored. */
  function Recorded(allocations: map<string, AllocationRecord>, id: string, tokens: int)
    : map<string, AllocationRecord>
  {
    if id in allocations then allocations[id := allocations[id].(consumed := allocations[id].consumed + tokens)]
    else allocations
  }

  /** What `rebalance_partial` leaves in the records: the subtree's records are
      dropped and its former total is split again over its leaves. */
  function Rebalanced(t: Tree, allocations: map<string, AllocationRecord>, weights: map<string, NodeWeight>)
    : map<string, AllocationRecord>
  {
    (allocations - LeafIdSet(t)) + Records(BalancedShares(t, SubtreeBudget(t, allocations), weights))
  }

  /** The usage feedback of `_recalculate_all_weights` for one node: above 80%
      utilisation the usage factor grows by 10%, below 20% it shrinks by 10%. */
  function Adjusted(w: NodeWeight, utilization: real): (w2: NodeWeight)
    ensures w2.queueDepth == w.queueDepth && w2.complexity == w.complexity && w2.priority == w.priority
    ensures utilization > 0.8 ==> w2.historicalUsage == w.historicalUsage * 1.1
    ensures utilization < 0.2 ==> w2.historicalUsage == w.historicalUsage * 0.9
    ensures 0.2 <= utilization <= 0.8 ==> w2 == w
  {
    if utilization > 0.8 then w.(historicalUsage := w.historicalUsage * 1.1)
    else if utilization < 0.2 then w.(historicalUsage := w.historicalUsage * 0.9)
    else w
  }

  /** One node's step of `_recalculate_all_weights`: only a node with a record is
      touched, and its weight entry is created if it was missing. */
  function AdjustNode(id: string, allocations: map<string, AllocationRecord>, weights: map<string, NodeWeight>)
    : map<string, NodeWeight>
  {
    if id in allocations then weights[id := Adjusted(WeightOf(weights, id), allocations[id].Utilization())]
    else weights
  }

  /** `_recalculate_all_weights` over `t`, in pre-order. */
  function Recalculated(t: Tree, allocations: map<string, AllocationRecord>, weights: map<string, NodeWeight>)
    : map<string, NodeWeight>
  {
    var here := AdjustNode(t.Id(), allocations, weights);
    match t
    case Leaf(_) => here
    case Node(_, l, r) => Recalculated(r, allocations, Recalculated(l, allocations, here))
  }

  /** One entry of `get_utilization_report` (the ratio is kept as a number
      rather than the percentage text). */
  datatype UsageEntry = UsageEntry(granted: int, consumed: int, utilization: real, remaining: int)

  function Entry(r: AllocationRecord): UsageEntry {
    UsageEntry(r.granted, r.consumed, r.Utilization(), r.Remaining())
  }

  function Report(allocations: map<string, AllocationRecord>): map<string, UsageEntry> {
    map id | id in allocations :: Entry(allocations[id])
  }

  // ---------------------------------------------------------------------------
  // Arithmetic of one split

  lemma FloorMonotone(x: real, y: real)
    requires x <= y
    ensures x.Floor <= y.Floor
  {
  }

  lemma FloorShift(x: real, k: int)
    ensures (x + k as real).Floor == x.Floor + k
  {
  }

  lemma MulMonotone(a: real, b: real, c: real)
    requires a <= b && 0.0 <= c
    ensures a * c <= b * c && c * a <= c * b
  {
  }

  lemma MulBothMonotone(a1: real, a2: real, b1: real, b2: real)
    requires 0.0 <= a1 <= a2 && 0.0 <= b1 <= b2
    ensures 0.0 <= a1 * b1 <= a2 * b2
  {
    MulMonotone(a1, a2, b1);
    MulMonotone(b1, b2, a2);
  }

  lemma MulCancel(x: real, y: real, c: real)
    requires 0.0 < c && x * c <= y * c
    ensures x <= y
  {
  }

  lemma QuotientBounds(a: real, b: real)
    requires 0.0 <= a <= b && 0.0 < b
    ensures 0.0 <= a / b <= 1.0
  {
    var q := a / b;
    assert q * b == a;
    if q > 1.0 {
      MulMonotone(1.0, q, b);
    }
    if q < 0.0 {
      MulMonotone(q, 0.0, b);
    }
  }

  /** Cross-multiplication: a/b <= c/d when a·d <= c·b, for positive b and d. */
  lemma QuotientLeq(a: real, b: real, c: real, d: real)
    requires 0.0 < b && 0.0 < d && a * d <= c * b
    ensures a / b <= c / d
  {
    var x, y := a / b, c / d;
    assert x * b == a && y * d == c;
    var bd := b * d;
    assert x * bd == a * d && y * bd == c * b;
    MulCancel(x, y, bd);
  }

  lemma LeftFractionBounds(lw: real, rw: real)
    requires 0.0 <= lw && 0.0 <= rw
    ensures 0.0 <= LeftFraction(lw, rw) <= 1.0
    ensures lw + rw == 0.0 ==> LeftFraction(lw, rw) == 0.0
  {
    if lw + rw != 0.0 {
      QuotientBounds(lw, lw + rw);
    }
  }

  /** More weight on the left never lowers the left fraction. */
  lemma LeftFractionGrowsWithLeft(lw1: real, lw2: real, rw: real)
    requires 0.0 <= lw1 <= lw2 && 0.0 <= rw
    ensures LeftFraction(lw1, rw) <= LeftFraction(lw2, rw)
  {
    LeftFractionBounds(lw2, rw);
    if lw1 + rw != 0.0 {
      MulMonotone(lw1, lw2, rw);
      assert lw1 * (lw2 + rw) == lw1 * lw2 + lw1 * rw;
      assert lw2 * (lw1 + rw) == lw1 * lw2 + lw2 * rw;
      QuotientLeq(lw1, lw1 + rw, lw2, lw2 + rw);
    }
  }

  /** More weight on the right never raises the left fraction. */
  lemma LeftFractionShrinksWithRight(lw: real, rw1: real, rw2: real)
    requires 0.0 <= lw && 0.0 <= rw1 <= rw2
    ensures LeftFraction(lw, rw2) <= LeftFraction(lw, rw1)
  {
    LeftFractionBounds(lw, rw2);
    if lw != 0.0 {
      MulMonotone(lw + rw1, lw + rw2, lw);
      assert lw * (lw + rw1) == (lw + rw1) * lw;
      QuotientLeq(lw, lw + rw2, lw, lw + rw1);
    }
  }

  /** The split gives each side between 0 and the whole budget, and all of it
      to the right when both sides weigh nothing. */
  lemma LeftShareBounds(budget: int, lw: real, rw: real)
    requires 0 <= budget && 0.0 <= lw && 0.0 <= rw
    ensures 0 <= LeftShare(budget, lw, rw) <= budget
    ensures lw + rw == 0.0 ==> LeftShare(budget, lw, rw) == 0
  {
    LeftFractionBounds(lw, rw);
    var f := LeftFraction(lw, rw);
    MulMonotone(0.0, budget as real, f);
    MulMonotone(f, 1.0, budget as real);
    assert 0.0 <= budget as real * f <= budget as real;
    FloorMonotone(budget as real * f, budget as real);
  }

  lemma LeftShareMonotone(b1: int, b2: int, lw1: real, lw2: real, rw: real)
    requires 0 <= b1 <= b2 && 0.0 <= lw1 <= lw2 && 0.0 <= rw
    ensures LeftShare(b1, lw1, rw) <= LeftShare(b2, lw2, rw)
  {
    LeftFractionBounds(lw1, rw);
    LeftFractionGrowsWithLeft(lw1, lw2, rw);
    var f1, f2 := LeftFraction(lw1, rw), LeftFraction(lw2, rw);
    MulBothMonotone(b1 as real, b2 as real, f1, f2);
    FloorMonotone(b1 as real * f1, b2 as real * f2);
  }

  /** The real-number core of the right-share bound: scaling by a smaller
      fraction, and a larger budget adds at most its own increase. */
  lemma ScaledBounds(c1: real, c2: real, g1: real, g2: real)
    requires 0.0 <= c1 <= c2 && 0.0 <= g2 <= g1 <= 1.0
    ensures 0.0 <= c1 * g1 <= c1
    ensures c2 * g2 <= c1 * g1 + (c2 - c1)
  {
    MulMonotone(g1, 1.0, c1);
    MulMonotone(0.0, g1, c1);
    var d := c2 - c1;
    MulMonotone(g2, g1, c2);
    assert c2 * g2 <= c2 * g1;
    MulMonotone(g1, 1.0, d);
    assert d * g1 <= d;
    assert c2 * g1 == c1 * g1 + d * g1;
    AddBound(c2 * g2, c2 * g1, c1 * g1, d * g1, d);
  }

  /** Linear glue for bounds whose terms are products. */
  lemma AddBound(a: real, b: real, c: real, e: real, d: real)
    requires a <= b && b == c + e && e <= d
    ensures a <= c + d
  {
  }

  lemma FloorStep(x1: real, x2: real, b1: int, b2: int)
    requires 0.0 <= x1 <= b1 as real && x2 <= x1 + (b2 as real - b1 as real)
    ensures 0 <= b1 - x1.Floor
    ensures b1 - x1.Floor <= b2 - x2.Floor
  {
    FloorMonotone(x1, b1 as real);
    FloorMonotone(x2, x1 + (b2 - b1) as real);
    FloorShift(x1, b2 - b1);
  }

  lemma LeftShareIsFloor(budget: int, lw: real, rw: real)
    requires 0 <= budget && 0.0 <= lw && 0.0 <= rw
    ensures 0.0 <= budget as real * LeftFraction(lw, rw)
    ensures LeftShare(budget, lw, rw) == (budget as real * LeftFraction(lw, rw)).Floor
  {
    LeftFractionBounds(lw, rw);
    MulBothMonotone(0.0, budget as real, 0.0, LeftFraction(lw, rw));
  }

  /** The right side's part, b − ⌊b·g⌋, grows with the budget and shrinks with the fraction g. */
  lemma RightPartMonotone(b1: int, b2: int, g1: real, g2: real)
    requires 0 <= b1 <= b2 && 0.0 <= g2 <= g1 <= 1.0
    ensures 0 <= b1 - (b1 as real * g1).Floor
    ensures b1 - (b1 as real * g1).Floor <= b2 - (b2 as real * g2).Floor
  {
    ScaledBounds(b1 as real, b2 as real, g1, g2);
    FloorStep(b1 as real * g1, b2 as real * g2, b1, b2);
  }

  lemma RightShareMonotone(b1: int, b2: int, lw: real, rw1: real, rw2: real)
    requires 0 <= b1 <= b2 && 0.0 <= lw && 0.0 <= rw1 <= rw2
    ensures 0 <= b1 - LeftShare(b1, lw, rw1)
    ensures b1 - LeftShare(b1, lw, rw1) <= b2 - LeftShare(b2, lw, rw2)
  {
    LeftFractionBounds(lw, rw1);
    LeftFractionBounds(lw, rw2);
    LeftFractionShrinksWithRight(lw, rw1, rw2);
    LeftShareIsFloor(b1, lw, rw1);
    LeftShareIsFloor(b2, lw, rw2);
    var g1, g2 := LeftFraction(lw, rw1), LeftFraction(lw, rw2);
    RightPartMonotone(b1, b2, g1, g2);
    SubtractionGlue(b1, b2, LeftShare(b1, lw, rw1), LeftShare(b2, lw, rw2),
                    (b1 as real * g1).Floor, (b2 as real * g2).Floor);
  }

  /** Linear glue: equal terms can replace each other in a difference bound. */
  lemma SubtractionGlue(b1: int, b2: int, s1: int, s2: int, f1: int, f2: int)
    requires s1 == f1 && s2 == f2 && 0 <= b1 - f1 <= b2 - f2
    ensures 0 <= b1 - s1 <= b2 - s2
  {
  }

  // ---------------------------------------------------------------------------
  // Properties of the split over a whole tree

  lemma {:induction false} SubtreeWeightNonNegative(t: Tree, wt: string -> real)
    requires NonNegativeLeafWeights(t, wt)
    ensures SubtreeWeight(t, wt) >= 0.0
  {
    match t
    case Leaf(n) =>
      assert n.Id() in LeafIdSet(t);
    case Node(_, l, r) =>
      SubtreeWeightNonNegative(l, wt);
      SubtreeWeightNonNegative(r, wt);
  }

  lemma {:induction false} SubtreeWeightMonotone(t: Tree, wt1: string -> real, wt2: string -> real)
    requires forall id :: id in LeafIdSet(t) ==> wt1(id) <= wt2(id)
    ensures SubtreeWeight(t, wt1) <= SubtreeWeight(t, wt2)
  {
    match t
    case Leaf(n) =>
      assert n.Id() in LeafIdSet(t);
    case Node(_, l, r) =>
      SubtreeWeightMonotone(l, wt1, wt2);
      SubtreeWeightMonotone(r, wt1, wt2);
  }

  lemma UseWithinBudget(split: SplitRule, b: int, lw: real, rw: real)
    requires WithinBudget(split) && 0 <= b && 0.0 <= lw && 0.0 <= rw
    ensures 0 <= split(b, lw, rw) <= b
  {
  }

  lemma UseFollowsWeight(split: SplitRule, b1: int, b2: int, lw1: real, lw2: real, rw1: real, rw2: real)
    requires FollowsWeight(split) && 0 <= b1 <= b2
    ensures 0.0 <= lw1 <= lw2 && 0.0 <= rw1 && rw1 == rw2 ==> split(b1, lw1, rw1) <= split(b2, lw2, rw2)
    ensures 0.0 <= lw1 && lw1 == lw2 && 0.0 <= rw1 <= rw2 ==> b1 - split(b1, lw1, rw1) <= b2 - split(b2, lw2, rw2)
  {
  }

  /** `int(available_budget * (left_weight / total_weight))` is a split rule of both kinds. */
  lemma LeftShareIsWellBehaved()
    ensures WithinBudget(LeftShare)
    ensures FollowsWeight(LeftShare)
  {
    forall b: int, lw: real, rw: real | 0 <= b && 0.0 <= lw && 0.0 <= rw
      ensures 0 <= LeftShare(b, lw, rw) <= b
    {
      LeftShareBounds(b, lw, rw);
    }
    forall b1: int, b2: int, lw1: real, lw2: real, rw: real | 0 <= b1 <= b2 && 0.0 <= lw1 <= lw2 && 0.0 <= rw
      ensures LeftShare(b1, lw1, rw) <= LeftShare(b2, lw2, rw)
    {
      LeftShareMonotone(b1, b2, lw1, lw2, rw);
    }
    forall b1: int, b2: int, lw: real, rw1: real, rw2: real | 0 <= b1 <= b2 && 0.0 <= lw && 0.0 <= rw1 <= rw2
      ensures b1 - LeftShare(b1, lw, rw1) <= b2 - LeftShare(b2, lw, rw2)
    {
      RightShareMonotone(b1, b2, lw, rw1, rw2);
    }
  }

  /** The share of one leaf `x`, following only the path from `t` down to it
      (on a tree with repeated leaf ids the right-hand occurrence wins, as it
      does when the two halves of the share map are joined). */
  function ShareOf(t: Tree, budget: int, wt: string -> real, split: SplitRule, x: string): int {
    match t
    case Leaf(_) => budget
    case Node(_, l, r) =>
      var lb := split(budget, SubtreeWeight(l, wt), SubtreeWeight(r, wt));
      if x in LeafIdSet(r) then ShareOf(r, budget - lb, wt, split, x) else ShareOf(l, lb, wt, split, x)
  }

  /** Exactly the leaves of `t` receive a share. */
  lemma {:induction false} SharesKeys(t: Tree, budget: int, wt: string -> real, split: SplitRule)
    ensures Shares(t, budget, wt, split).Keys == LeafIdSet(t)
  {
    match t
    case Leaf(_) =>
    case Node(_, l, r) =>
      var lb := split(budget, SubtreeWeight(l, wt), SubtreeWeight(r, wt));
      SharesKeys(l, lb, wt, split);
      SharesKeys(r, budget - lb, wt, split);
  }

  /** The share map gives every leaf its path-wise share. */
  lemma {:induction false} SharesAgree(t: Tree, budget: int, wt: string -> real, split: SplitRule, x: string)
    requires x in LeafIdSet(t)
    ensures x in Shares(t, budget, wt, split)
    ensures Shares(t, budget, wt, split)[x] == ShareOf(t, budget, wt, split, x)
  {
    match t
    case Leaf(_) =>
    case Node(_, l, r) =>
      var lb := split(budget, SubtreeWeight(l, wt), SubtreeWeight(r, wt));
      SharesKeys(r, budget - lb, wt, split);
      var sl, sr := Shares(l, lb, wt, split), Shares(r, budget - lb, wt, split);
      assert Shares(t, budget, wt, split) == sl + sr;
      if x in LeafIdSet(r) {
        SharesAgree(r, budget - lb, wt, split, x);
        UnionLookup(sl, sr, x);
        assert ShareOf(t, budget, wt, split, x) == ShareOf(r, budget - lb, wt, split, x);
      } else {
        SharesAgree(l, lb, wt, split, x);
        UnionLookup(sl, sr, x);
        assert ShareOf(t, budget, wt, split, x) == ShareOf(l, lb, wt, split, x);
      }
  }

  /** A key of a map union takes the right operand's value when it has one. */
  lemma UnionLookup(a: map<string, int>, b: map<string, int>, x: string)
    requires x in a || x in b
    ensures x in a + b
    ensures (a + b)[x] == if x in b then b[x] else a[x]
  {
  }

  /** Every leaf's path-wise share lies between 0 and the budget split from `t`. */
  lemma {:induction false} ShareOfBounded(t: Tree, budget: int, wt: string -> real, split: SplitRule, x: string)
    requires 0 <= budget && NonNegativeLeafWeights(t, wt) && WithinBudget(split)
    ensures 0 <= ShareOf(t, budget, wt, split, x) <= budget
  {
    match t
    case Leaf(_) =>
    case Node(_, l, r) =>
      var lw, rw := SubtreeWeight(l, wt), SubtreeWeight(r, wt);
      SubtreeWeightNonNegative(l, wt);
      SubtreeWeightNonNegative(r, wt);
      var lb := split(budget, lw, rw);
      UseWithinBudget(split, budget, lw, rw);
      if x in LeafIdSet(r) {
        ShareOfBounded(r, budget - lb, wt, split, x);
      } else {
        ShareOfBounded(l, lb, wt, split, x);
      }
  }

  /** Every leaf's share lies between 0 and the budget split from `t`. */
  lemma SharesBounded(t: Tree, budget: int, wt: string -> real, split: SplitRule)
    requires Wf(t) && 0 <= budget && NonNegativeLeafWeights(t, wt) && WithinBudget(split)
    ensures forall id :: id in LeafIdSet(t) ==> id in Shares(t, budget, wt, split)
    ensures forall id :: id in LeafIdSet(t) ==> 0 <= Shares(t, budget, wt, split)[id] <= budget
  {
    forall id | id in LeafIdSet(t)
      ensures id in Shares(t, budget, wt, split) && 0 <= Shares(t, budget, wt, split)[id] <= budget
    {
      SharesAgree(t, budget, wt, split, id);
      ShareOfBounded(t, budget, wt, split, id);
    }
  }

  lemma RecordsUnion(a: map<string, int>, b: map<string, int>)
    ensures Records(a + b) == Records(a) + Records(b)
  {
  }

  /** The budget of a subtree depends only on the records of its own leaves. */
  lemma {:induction false} SubtreeBudgetFrame(t: Tree, m1: map<string, AllocationRecord>, m2: map<string, AllocationRecord>)
    requires forall id :: id in LeafIdSet(t) ==> AllocationOf(m1, id) == AllocationOf(m2, id)
    ensures SubtreeBudget(t, m1) == SubtreeBudget(t, m2)
  {
    match t
    case Leaf(n) =>
      assert n.Id() in LeafIdSet(t);
    case Node(_, l, r) =>
      SubtreeBudgetFrame(l, m1, m2);
      SubtreeBudgetFrame(r, m1, m2);
  }

  lemma AllocationOfRecords(m: map<string, AllocationRecord>, s: map<string, int>, id: string)
    ensures AllocationOf(m + Records(s), id) == if id in s then s[id] else AllocationOf(m, id)
  {
  }

  /** Records that give every leaf its path-wise share hold exactly the budget. */
  lemma {:induction false} PathSharesConserve(t: Tree, budget: int, wt: string -> real, split: SplitRule,
                                              m: map<string, AllocationRecord>)
    requires Wf(t)
    requires forall id :: id in LeafIdSet(t) ==> AllocationOf(m, id) == ShareOf(t, budget, wt, split, id)
    ensures SubtreeBudget(t, m) == budget
  {
    match t
    case Leaf(n) =>
      assert n.Id() in LeafIdSet(t);
    case Node(_, l, r) =>
      SiblingLeavesDisjoint(t);
      var lb := split(budget, SubtreeWeight(l, wt), SubtreeWeight(r, wt));
      forall id | id in LeafIdSet(l)
        ensures AllocationOf(m, id) == ShareOf(l, lb, wt, split, id)
      {
        assert id !in LeafIdSet(r);
      }
      PathSharesConserve(l, lb, wt, split, m);
      PathSharesConserve(r, budget - lb, wt, split, m);
  }

  /** Conservation: after a split of `budget` from `t`, the leaves below `t`
      hold exactly `budget`, whatever was recorded before and whatever the rule. */
  lemma SplitConserves(t: Tree, budget: int, wt: string -> real, split: SplitRule,
                       before: map<string, AllocationRecord>)
    requires Wf(t)
    ensures SubtreeBudget(t, before + Records(Shares(t, budget, wt, split))) == budget
  {
    var s := Shares(t, budget, wt, split);
    forall id | id in LeafIdSet(t)
      ensures AllocationOf(before + Records(s), id) == ShareOf(t, budget, wt, split, id)
    {
      AllocationOfRecords(before, s, id);
      SharesAgree(t, budget, wt, split, id);
    }
    PathSharesConserve(t, budget, wt, split, before + Records(s));
  }

  /** Raising one leaf's weight (all other leaf weights unchanged) and the
      budget never lowers that leaf's share. */
  lemma {:induction false} ShareMonotone(t: Tree, b1: int, b2: int,
                                         wt1: string -> real, wt2: string -> real, split: SplitRule, x: string)
    requires Wf(t) && x in LeafIdSet(t)
    requires 0 <= b1 <= b2
    requires WithinBudget(split) && FollowsWeight(split)
    requires NonNegativeLeafWeights(t, wt1)
    requires forall id :: id in LeafIdSet(t) && id != x ==> wt2(id) == wt1(id)
    requires wt1(x) <= wt2(x)
    ensures ShareOf(t, b1, wt1, split, x) <= ShareOf(t, b2, wt2, split, x)
    decreases t, 1
  {
    match t
    case Leaf(_) =>
    case Node(_, l, r) =>
      if x in LeafIdSet(l) {
        ShareMonotoneOnLeft(t, b1, b2, wt1, wt2, split, x);
      } else {
        ShareMonotoneOnRight(t, b1, b2, wt1, wt2, split, x);
      }
  }

  /** The step of `ShareMonotone` for a leaf in the left subtree: the right
      subtree weighs the same, so the left budget does not shrink. */
  lemma {:induction false} ShareMonotoneOnLeft(t: Tree, b1: int, b2: int,
                                               wt1: string -> real, wt2: string -> real, split: SplitRule, x: string)
    requires Wf(t) && t.Node? && x in LeafIdSet(t.left)
    requires 0 <= b1 <= b2
    requires WithinBudget(split) && FollowsWeight(split)
    requires NonNegativeLeafWeights(t, wt1)
    requires forall id :: id in LeafIdSet(t) && id != x ==> wt2(id) == wt1(id)
    requires wt1(x) <= wt2(x)
    ensures ShareOf(t, b1, wt1, split, x) <= ShareOf(t, b2, wt2, split, x)
    decreases t, 0
  {
    var l, r := t.left, t.right;
    SiblingLeavesDisjoint(t);
    var lw1, rw1 := SubtreeWeight(l, wt1), SubtreeWeight(r, wt1);
    var lw2, rw2 := SubtreeWeight(l, wt2), SubtreeWeight(r, wt2);
    RaisedSideWeights(l, r, wt1, wt2, x);
    var lb1, lb2 := split(b1, lw1, rw1), split(b2, lw2, rw2);
    LeftBudgetGrows(split, b1, b2, lw1, lw2, rw1, rw2);
    ShareMonotone(l, lb1, lb2, wt1, wt2, split, x);
    assert x !in LeafIdSet(r);
  }

  /** The step of `ShareMonotone` for a leaf in the right subtree: the left
      subtree weighs the same, so the right budget does not shrink. */
  lemma {:induction false} ShareMonotoneOnRight(t: Tree, b1: int, b2: int,
                                                wt1: string -> real, wt2: string -> real, split: SplitRule, x: string)
    requires Wf(t) && t.Node? && x in LeafIdSet(t.right)
    requires 0 <= b1 <= b2
    requires WithinBudget(split) && FollowsWeight(split)
    requires NonNegativeLeafWeights(t, wt1)
    requires forall id :: id in LeafIdSet(t) && id != x ==> wt2(id) == wt1(id)
    requires wt1(x) <= wt2(x)
    ensures ShareOf(t, b1, wt1, split, x) <= ShareOf(t, b2, wt2, split, x)
    decreases t, 0
  {
    var l, r := t.left, t.right;
    var lw1, rw1 := SubtreeWeight(l, wt1), SubtreeWeight(r, wt1);
    var lw2, rw2 := SubtreeWeight(l, wt2), SubtreeWeight(r, wt2);
    SiblingLeavesDisjoint(t);
    RaisedSideWeights(r, l, wt1, wt2, x);
    var lb1, lb2 := split(b1, lw1, rw1), split(b2, lw2, rw2);
    RightBudgetGrows(split, b1, b2, lw1, lw2, rw1, rw2);
    var rb1, rb2 := b1 - lb1, b2 - lb2;
    ShareMonotone(r, rb1, rb2, wt1, wt2, split, x);
    ShareOfRightMonotone(t, b1, b2, wt1, wt2, split, x);
  }

  /** A leaf in the right subtree gets no less when what the left leaves over does not shrink. */
  lemma ShareOfRightMonotone(t: Tree, b1: int, b2: int, wt1: string -> real, wt2: string -> real, split: SplitRule, x: string)
    requires t.Node? && x in LeafIdSet(t.right)
    requires ShareOf(t.right, b1 - split(b1, SubtreeWeight(t.left, wt1), SubtreeWeight(t.right, wt1)), wt1, split, x)
          <= ShareOf(t.right, b2 - split(b2, SubtreeWeight(t.left, wt2), SubtreeWeight(t.right, wt2)), wt2, split, x)
    ensures ShareOf(t, b1, wt1, split, x) <= ShareOf(t, b2, wt2, split, x)
  {
  }

  /** Of two sibling subtrees, the one holding the raised leaf `x` weighs no
      less, and the other weighs the same. */
  lemma RaisedSideWeights(side: Tree, other: Tree, wt1: string -> real, wt2: string -> real, x: string)
    requires x in LeafIdSet(side) && x !in LeafIdSet(other)
    requires forall id :: id in LeafIdSet(side) + LeafIdSet(other) ==> wt1(id) >= 0.0
    requires forall id :: id in LeafIdSet(side) + LeafIdSet(other) && id != x ==> wt2(id) == wt1(id)
    requires wt1(x) <= wt2(x)
    ensures 0.0 <= SubtreeWeight(side, wt1) <= SubtreeWeight(side, wt2)
    ensures 0.0 <= SubtreeWeight(other, wt1) == SubtreeWeight(other, wt2)
  {
    SubtreeWeightNonNegative(side, wt1);
    SubtreeWeightNonNegative(other, wt1);
    SubtreeWeightMonotone(side, wt1, wt2);
    SubtreeWeightFrame(other, wt1, wt2);
  }

  /** A subtree whose leaves weigh the same under two views weighs the same. */
  lemma {:induction false} SubtreeWeightFrame(t: Tree, wt1: string -> real, wt2: string -> real)
    requires forall id :: id in LeafIdSet(t) ==> wt1(id) == wt2(id)
    ensures SubtreeWeight(t, wt1) == SubtreeWeight(t, wt2)
  {
    match t
    case Leaf(n) =>
      assert n.Id() in LeafIdSet(t);
    case Node(_, l, r) =>
      SubtreeWeightFrame(l, wt1, wt2);
      SubtreeWeightFrame(r, wt1, wt2);
  }

  /** At one node: a heavier left side and a larger budget give the left a budget
      no smaller, and within the larger budget. */
  lemma LeftBudgetGrows(split: SplitRule, b1: int, b2: int, lw1: real, lw2: real, rw1: real, rw2: real)
    requires WithinBudget(split) && FollowsWeight(split)
    requires 0 <= b1 <= b2 && 0.0 <= lw1 <= lw2 && 0.0 <= rw1 && rw1 == rw2
    ensures 0 <= split(b1, lw1, rw1) <= split(b2, lw2, rw2)
  {
    UseWithinBudget(split, b1, lw1, rw1);
    UseFollowsWeight(split, b1, b2, lw1, lw2, rw1, rw2);
  }

  /** At one node: a heavier right side and a larger budget give the right a
      budget no smaller, and never a negative one. */
  lemma RightBudgetGrows(split: SplitRule, b1: int, b2: int, lw1: real, lw2: real, rw1: real, rw2: real)
    requires WithinBudget(split) && FollowsWeight(split)
    requires 0 <= b1 <= b2 && 0.0 <= lw1 && lw1 == lw2 && 0.0 <= rw1 <= rw2
    ensures 0 <= b1 - split(b1, lw1, rw1) <= b2 - split(b2, lw2, rw2)
  {
    UseWithinBudget(split, b1, lw1, rw1);
    UseFollowsWeight(split, b1, b2, lw1, lw2, rw1, rw2);
  }

  /** Raising one leaf's usage, complexity or priority factor (queue depth
      fixed) never lowers the share `_distribute` gives it. */
  lemma RaisedWeightNeverLowersShare(t: Tree, budget: int, weights: map<string, NodeWeight>, x: string, raisedTo: NodeWeight)
    requires Wf(t) && x in LeafIdSet(t) && 0 <= budget
    requires forall id :: id in LeafIdSet(t) ==> NonNegativeFactors(WeightOf(weights, id))
    requires raisedTo.queueDepth == WeightOf(weights, x).queueDepth
    requires WeightOf(weights, x).historicalUsage <= raisedTo.historicalUsage
    requires WeightOf(weights, x).complexity <= raisedTo.complexity
    requires WeightOf(weights, x).priority <= raisedTo.priority
    ensures x in BalancedShares(t, budget, weights)
    ensures x in BalancedShares(t, budget, weights[x := raisedTo])
    ensures BalancedShares(t, budget, weights)[x] <= BalancedShares(t, budget, weights[x := raisedTo])[x]
  {
    var raised := weights[x := raisedTo];
    var wt1, wt2 := WeightView(weights), WeightView(raised);
    forall id | id in LeafIdSet(t)
      ensures wt1(id) >= 0.0
    {
      TotalWeightNonNegative(WeightOf(weights, id));
    }
    TotalWeightMonotone(WeightOf(weights, x), WeightOf(raised, x));
    LeftShareIsWellBehaved();
    ShareMonotone(t, budget, budget, wt1, wt2, LeftShare, x);
    SharesAgree(t, budget, wt1, LeftShare, x);
    SharesAgree(t, budget, wt2, LeftShare, x);
  }

  /** Recording a split over existing records: the leaves of `t` get fresh
      records with their shares, every other record stays, and the leaves of `t`
      hold exactly the budget. */
  lemma SplitRecorded(t: Tree, budget: int, wt: string -> real, split: SplitRule, before: map<string, AllocationRecord>)
    requires Wf(t)
    ensures (before + Records(Shares(t, budget, wt, split))).Keys == before.Keys + LeafIdSet(t)
    ensures forall id :: id in before && id !in LeafIdSet(t) ==>
      (before + Records(Shares(t, budget, wt, split)))[id] == before[id]
    ensures forall id :: id in LeafIdSet(t) ==>
      (before + Records(Shares(t, budget, wt, split)))[id] == AllocationRecord(ShareOf(t, budget, wt, split, id), 0)
    ensures SubtreeBudget(t, before + Records(Shares(t, budget, wt, split))) == budget
  {
    var s := Shares(t, budget, wt, split);
    SharesKeys(t, budget, wt, split);
    forall id | id in LeafIdSet(t)
      ensures (before + Records(s))[id] == AllocationRecord(ShareOf(t, budget, wt, split, id), 0)
    {
      SharesAgree(t, budget, wt, split, id);
    }
    SplitConserves(t, budget, wt, split, before);
  }

  /** Partial rebalancing keeps the subtree's total. */
  lemma RebalancedConserves(t: Tree, allocations: map<string, AllocationRecord>, weights: map<string, NodeWeight>)
    requires Wf(t)
    ensures SubtreeBudget(t, Rebalanced(t, allocations, weights)) == SubtreeBudget(t, allocations)
  {
    var budget, before := SubtreeBudget(t, allocations), allocations - LeafIdSet(t);
    SplitConserves(t, budget, WeightView(weights), LeftShare, before);
  }

  /** Partial rebalancing gives the subtree's leaves fresh records and leaves
      every record outside the subtree exactly as it was. */
  lemma RebalancedKeepsOthers(t: Tree, allocations: map<string, AllocationRecord>, weights: map<string, NodeWeight>)
    requires Wf(t)
    ensures Rebalanced(t, allocations, weights).Keys == allocations.Keys + LeafIdSet(t)
    ensures forall id :: id !in LeafIdSet(t) && id in allocations ==>
      Rebalanced(t, allocations, weights)[id] == allocations[id]
    ensures forall id :: id in LeafIdSet(t) ==> Rebalanced(t, allocations, weights)[id].consumed == 0
  {
    ResplitKeepsOthers(t, allocations, WeightView(weights), LeftShare);
  }

  /** A partial rebalance leaves the allocation of every leaf outside its subtree as it was. */
  lemma RebalancedKeepsOutsideLeaf(s: Tree, t: Tree, allocations: map<string, AllocationRecord>,
                                   weights: map<string, NodeWeight>, n: BSTNode)
    requires IsSubtree(s, t) && Wf(t) && n in LeafObjects(t) && n !in LeafObjects(s)
    ensures AllocationOf(Rebalanced(s, allocations, weights), n.Id()) == AllocationOf(allocations, n.Id())
  {
    OutsideLeafId(s, t, n);
    SubtreeInherits(s, t);
    RebalancedKeepsOthers(s, allocations, weights);
  }

  /** `RebalancedKeepsOthers` for any leaf weights and split rule. */
  lemma ResplitKeepsOthers(t: Tree, allocations: map<string, AllocationRecord>, wt: string -> real, split: SplitRule)
    requires Wf(t)
    ensures var m := (allocations - LeafIdSet(t)) + Records(Shares(t, SubtreeBudget(t, allocations), wt, split));
      && m.Keys == allocations.Keys + LeafIdSet(t)
      && (forall id :: id !in LeafIdSet(t) && id in allocations ==> m[id] == allocations[id])
      && (forall id :: id in LeafIdSet(t) ==> m[id].consumed == 0)
  {
    SplitRecorded(t, SubtreeBudget(t, allocations), wt, split, allocations - LeafIdSet(t));
  }

  /** Consumption recorded in two steps equals the sum recorded at once. */
  lemma RecordedAdds(m: map<string, AllocationRecord>, id: string, a: int, b: int)
    ensures Recorded(Recorded(m, id, a), id, b) == Recorded(m, id, a + b)
  {
  }

  /** Recording consumption never changes an allocation. */
  lemma RecordedKeepsAllocations(m: map<string, AllocationRecord>, id: string, tokens: int)
    ensures Granted(Recorded(m, id, tokens)) == Granted(m)
    ensures forall t: Tree :: SubtreeBudget(t, Recorded(m, id, tokens)) == SubtreeBudget(t, m)
  {
    forall t: Tree ensures SubtreeBudget(t, Recorded(m, id, tokens)) == SubtreeBudget(t, m) {
      SubtreeBudgetFrame(t, Recorded(m, id, tokens), m);
    }
  }

  /** With no records, `_recalculate_all_weights` changes no weight. This is why
      `rebalance_full`, which clears the records first, applies no usage feedback. */
  lemma {:induction false} RecalculatedWithoutRecords(t: Tree, weights: map<string, NodeWeight>)
    ensures Recalculated(t, map[], weights) == weights
  {
    match t
    case Leaf(_) =>
    case Node(_, l, r) =>
      RecalculatedWithoutRecords(l, weights);
      RecalculatedWithoutRecords(r, weights);
  }

  /** `rebalance_full` is repeatable: its weight pass runs on cleared records, so
      the weights after one full rebalance are the weights before it, and a
      second full rebalance splits the budget by the same weights and returns
      the same map. */
  lemma FullRebalanceRepeatable(t: Tree, budget: int, weights: map<string, NodeWeight>)
    ensures var first := Recalculated(t, map[], weights);
            var second := Recalculated(t, map[], first);
            && first == weights && second == weights
            && Granted(Records(BalancedShares(t, budget, second))) == Granted(Records(BalancedShares(t, budget, first)))
  {
    RecalculatedWithoutRecords(t, weights);
  }

  /** `_recalculate_all_weights` adjusts each node of `t` that has a record by its
      own utilisation, once, and leaves every other weight as it was. */
  lemma {:induction false} RecalculatedEffect(t: Tree, allocations: map<string, AllocationRecord>,
                                              weights: map<string, NodeWeight>, id: string)
    requires Wf(t)
    ensures WeightOf(Recalculated(t, allocations, weights), id) ==
      if id in AllIds(t) && id in allocations
      then Adjusted(WeightOf(weights, id), allocations[id].Utilization())
      else WeightOf(weights, id)
  {
    var here := AdjustNode(t.Id(), allocations, weights);
    match t
    case Leaf(_) =>
    case Node(_, l, r) =>
      var mid := Recalculated(l, allocations, here);
      RecalculatedEffect(l, allocations, here, id);
      RecalculatedEffect(r, allocations, mid, id);
  }

  /** A freshly split tree reports each leaf with its share, nothing consumed,
      zero utilisation and the whole share remaining. */
  lemma FreshReport(shares: map<string, int>, id: string)
    requires id in shares
    ensures id in Report(Records(shares))
    ensures Report(Records(shares))[id] == UsageEntry(shares[id], 0, 0.0, shares[id])
  {
  }

  /** Splitting into an empty record table records exactly the leaves of `t`,
      which then hold the whole budget. */
  lemma FreshSplit(t: Tree, budget: int, weights: map<string, NodeWeight>)
    requires Wf(t)
    ensures map[] + Records(BalancedShares(t, budget, weights)) == Records(BalancedShares(t, budget, weights))
    ensures Records(BalancedShares(t, budget, weights)).Keys == LeafIdSet(t)
    ensures SubtreeBudget(t, Records(BalancedShares(t, budget, weights))) == budget
  {
    var records := Records(BalancedShares(t, budget, weights));
    EmptyUnion(records);
    SplitRecorded(t, budget, WeightView(weights), LeftShare, map[]);
  }

  /** The eight leaves of the built tree share the whole budget between them. */
  lemma BuiltTreeSplit(t: Tree, budget: int, weights: map<string, NodeWeight>)
    requires Wf(t) && HasBuiltLayout(t)
    ensures BalancedShares(t, budget, weights).Keys == {"M111", "M112", "M121", "M122", "M211", "M212", "M221", "M222"}
    ensures SubtreeBudget(t, Records(BalancedShares(t, budget, weights))) == budget
  {
    BuiltLeaves(t);
    FreshSplit(t, budget, weights);
  }

  /** One step of `Shares` at an internal node, given the two budgets. */
  lemma SharesStep(t: Tree, l: Tree, r: Tree, budget: int, wt: string -> real, split: SplitRule, lb: int, rb: int)
    requires t.Node? && t.left == l && t.right == r
    requires lb == split(budget, SubtreeWeight(l, wt), SubtreeWeight(r, wt))
    requires rb == budget - lb
    ensures Shares(t, budget, wt, split) == Shares(l, lb, wt, split) + Shares(r, rb, wt, split)
  {
  }

  /** One step of `BalancedShares` at an internal node, given the two budgets. */
  lemma BalancedSharesStep(t: Tree, l: Tree, r: Tree, budget: int, weights: map<string, NodeWeight>, lb: int, rb: int)
    requires t.Node? && t.left == l && t.right == r
    requires lb == LeftShare(budget, SubtreeWeight(l, WeightView(weights)), SubtreeWeight(r, WeightView(weights)))
    requires rb == budget - lb
    ensures BalancedShares(t, budget, weights) == BalancedShares(l, lb, weights) + BalancedShares(r, rb, weights)
  {
    SharesStep(t, l, r, budget, WeightView(weights), LeftShare, lb, rb);
  }

  /** The inline split of `_distribute`, with its guard against a zero total,
      is `LeftShare`. */
  lemma InlineSplit(budget: int, lw: real, rw: real, tw: real)
    requires tw == if lw + rw == 0.0 then 1.0 else lw + rw
    ensures Trunc(budget as real * (lw / tw)) == LeftShare(budget, lw, rw)
  {
  }

  lemma EmptyUnion(m: map<string, AllocationRecord>)
    ensures map[] + m == m
  {
  }

  /** Recording two share maps one after the other records their union. */
  lemma RecordsAppend(m: map<string, AllocationRecord>, a: map<string, int>, b: map<string, int>)
    ensures m + Records(a) + Records(b) == m + Records(a + b)
  {
    RecordsUnion(a, b);
  }

  // ---------------------------------------------------------------------------
  // The balancer object

  class TokenBalancer {
    const totalBudget: int
    var leafAllocations: map<string, AllocationRecord>
    var nodeWeights: map<string, NodeWeight>

    constructor (totalBudget: int)
      ensures this.totalBudget == totalBudget
      ensures leafAllocations == map[] && nodeWeights == map[]
    {
      this.totalBudget := totalBudget;
      leafAllocations := map[];
      nodeWeights := map[];
    }

    /** `get_allocation`. */
    function GetAllocation(id: string): (n: int)
      reads this
      ensures id in leafAllocations ==> n == leafAllocations[id].granted
      ensures id !in leafAllocations ==> n == 0
    {
      if id in leafAllocations then leafAllocations[id].granted else 0
    }

    /** `_distribute`: records the split of `budget` down `t` and sets each
        leaf's own allocation to its share. */
    method Distribute(t: Tree, budget: int) returns (r: int)
      requires Wf(t)
      modifies this, LeafObjects(t)`allocation
      ensures r == budget
      ensures leafAllocations == old(leafAllocations) + Records(BalancedShares(t, budget, nodeWeights))
      ensures nodeWeights == old(nodeWeights)
      ensures forall n :: n in LeafObjects(t) ==> n.allocation == AllocationOf(leafAllocations, n.Id())
      ensures forall n: BSTNode :: old(allocated(n)) && n !in LeafObjects(t) ==> n.allocation == old(n.allocation)
      decreases t
    {
      match t
      case Leaf(n) =>
        leafAllocations := leafAllocations[n.Id() := AllocationRecord(budget, 0)];
        n.SetAllocation(budget);
        assert leafAllocations == old(leafAllocations) + Records(map[n.Id() := budget]);
        return budget;
      case Node(_, l, rt) =>
        SiblingLeavesDisjoint(t);
        var leftWeight := SubtreeWeight(l, WeightView(nodeWeights));
        var rightWeight := SubtreeWeight(rt, WeightView(nodeWeights));
        var totalWeight := leftWeight + rightWeight;
        if totalWeight == 0.0 {
          totalWeight := 1.0;
        }
        var leftBudget := Trunc(budget as real * (leftWeight / totalWeight));
        var rightBudget := budget - leftBudget;
        InlineSplit(budget, leftWeight, rightWeight, totalWeight);
        BalancedSharesStep(t, l, rt, budget, nodeWeights, leftBudget, rightBudget);
        ghost var sl, sr := BalancedShares(l, leftBudget, nodeWeights), BalancedShares(rt, rightBudget, nodeWeights);
        var _ := Distribute(l, leftBudget);
        ghost var mid := leafAllocations;
        LeafObjectsAllocated(l);
        var _ := Distribute(rt, rightBudget);
        RecordsAppend(old(leafAllocations), sl, sr);
        SharesKeys(rt, rightBudget, WeightView(nodeWeights), LeftShare);
        forall n | n in LeafObjects(t)
          ensures n.allocation == AllocationOf(leafAllocations, n.Id())
        {
          if n in LeafObjects(l) {
            assert n !in LeafObjects(rt);
            LeafObjectIds(l, n);
            AllocationOfRecords(mid, sr, n.Id());
          }
        }
        return budget;
    }

    /** `balance_tokens`: splits the whole budget from the root. */
    method BalanceTokens(t: Tree) returns (view: map<string, int>)
      requires Wf(t)
      modifies this, LeafObjects(t)`allocation
      ensures leafAllocations == old(leafAllocations) + Records(BalancedShares(t, totalBudget, nodeWeights))
      ensures nodeWeights == old(nodeWeights)
      ensures SubtreeBudget(t, leafAllocations) == totalBudget
      ensures view == Granted(leafAllocations)
      ensures forall n :: n in LeafObjects(t) ==> n.allocation == GetAllocation(n.Id())
    {
      var _ := Distribute(t, totalBudget);
      SplitConserves(t, totalBudget, WeightView(nodeWeights), LeftShare, old(leafAllocations));
      view := Granted(leafAllocations);
    }

    /** `update_weight`: applies the named factors in order; naming the
        read-only `total_weight` raises after the earlier ones were applied. */
    method UpdateWeight(id: string, args: seq<WeightArg>) returns (raised: bool)
      modifies this`nodeWeights
      ensures raised <==> ApplyArgs(WeightOf(old(nodeWeights), id), args).Raised?
      ensures nodeWeights == old(nodeWeights)[id := ApplyArgs(WeightOf(old(nodeWeights), id), args).weight]
    {
      var weight := WeightOf(nodeWeights, id);
      nodeWeights := nodeWeights[id := weight];
      var i := 0;
      while i < |args|
        invariant 0 <= i <= |args|
        invariant nodeWeights == old(nodeWeights)[id := weight]
        invariant ApplyArgs(WeightOf(old(nodeWeights), id), args) == ApplyArgs(weight, args[i..])
      {
        if args[i].name == "total_weight" {
          return true;
        }
        weight := SetFactor(weight, args[i].name, args[i].value);
        nodeWeights := nodeWeights[id := weight];
        i := i + 1;
      }
      return false;
    }

    /** `record_consumption`. */
    method RecordConsumption(id: string, tokens: int)
      modifies this`leafAllocations
      ensures leafAllocations == Recorded(old(leafAllocations), id, tokens)
    {
      if id in leafAllocations {
        var record := leafAllocations[id];
        leafAllocations := leafAllocations[id := record.(consumed := record.consumed + tokens)];
      }
    }

    /** `_clear_subtree_allocations`: drops the records of the leaves below `t`. */
    method ClearSubtreeAllocations(t: Tree)
      requires Wf(t)
      modifies this`leafAllocations
      ensures leafAllocations == old(leafAllocations) - LeafIdSet(t)
      decreases t
    {
      match t
      case Leaf(n) =>
        if n.Id() in leafAllocations {
          leafAllocations := leafAllocations - {n.Id()};
        }
      case Node(_, l, r) =>
        ClearSubtreeAllocations(l);
        ClearSubtreeAllocations(r);
    }

    /** `rebalance_partial`: an absent subtree yields an empty view and changes nothing. */
    method RebalancePartial(sub: Option<Tree>) returns (view: map<string, int>)
      requires sub.Some? ==> Wf(sub.value)
      modifies this, (if sub.Some? then LeafObjects(sub.value) else {})`allocation
      ensures sub.None? ==> view == map[] && leafAllocations == old(leafAllocations)
      ensures sub.Some? ==> leafAllocations == Rebalanced(sub.value, old(leafAllocations), nodeWeights)
      ensures sub.Some? ==> view == Granted(leafAllocations)
      ensures sub.Some? ==> forall n :: n in LeafObjects(sub.value) ==> n.allocation == AllocationOf(leafAllocations, n.Id())
      ensures nodeWeights == old(nodeWeights)
    {
      if sub.None? {
        return map[];
      }
      var t := sub.value;
      var budget := SubtreeBudget(t, leafAllocations);
      ClearSubtreeAllocations(t);
      var _ := Distribute(t, budget);
      view := Granted(leafAllocations);
    }

    /** `_recalculate_all_weights`, walking `t` in pre-order. */
    method RecalculateAllWeights(t: Tree)
      modifies this`nodeWeights
      ensures nodeWeights == Recalculated(t, leafAllocations, old(nodeWeights))
      decreases t
    {
      var id := t.Id();
      if id in leafAllocations {
        var record := leafAllocations[id];
        var weight := WeightOf(nodeWeights, id);
        var u := record.Utilization();
        if u > 0.8 {
          weight := weight.(historicalUsage := weight.historicalUsage * 1.1);
        } else if u < 0.2 {
          weight := weight.(historicalUsage := weight.historicalUsage * 0.9);
        }
        nodeWeights := nodeWeights[id := weight];
      }
      match t
      case Leaf(_) =>
      case Node(_, l, r) =>
        RecalculateAllWeights(l);
        RecalculateAllWeights(r);
    }

    /** `rebalance_full`: records are cleared before the weights are recalculated,
        so the weights stay as they were and the whole budget is split afresh;
        two calls in a row therefore return the same map (`FullRebalanceRepeatable`). */
    method RebalanceFull(t: Tree) returns (view: map<string, int>)
      requires Wf(t)
      modifies this, LeafObjects(t)`allocation
      ensures nodeWeights == old(nodeWeights)
      ensures leafAllocations == Records(BalancedShares(t, totalBudget, nodeWeights))
      ensures leafAllocations.Keys == LeafIdSet(t)
      ensures SubtreeBudget(t, leafAllocations) == totalBudget
      ensures view == Granted(leafAllocations)
      ensures forall n :: n in LeafObjects(t) ==> n.allocation == AllocationOf(leafAllocations, n.Id())
    {
      leafAllocations := map[];
      RecalculateAllWeights(t);
      RecalculatedWithoutRecords(t, old(nodeWeights));
      var _ := Distribute(t, totalBudget);
      FreshSplit(t, totalBudget, nodeWeights);
      view := Granted(leafAllocations);
    }

    /** `get_utilization_report`. */
    method GetUtilizationReport() returns (report: map<string, UsageEntry>)
      ensures report == Report(leafAllocations)
    {
      report := map[];
      var todo := leafAllocations.Keys;
      while todo != {}
        invariant todo <= leafAllocations.Keys
        invariant forall id :: id in report <==> id in leafAllocations && id !in todo
        invariant forall id :: id in report ==> report[id] == Entry(leafAllocations[id])
        decreases |todo|
      {
        var id :| id in todo;
        var record := leafAllocations[id];
        report := report[id := UsageEntry(record.granted, record.consumed, record.Utilization(),
                                          record.granted - record.consumed)];
        todo := todo - {id};
      }
    }
  }
}
