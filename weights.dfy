/** Per-node weight factors and per-leaf allocation records of the token balancer. */
module Weights {

  /** The four weight factors of a node. Python stores them as numbers without
      checking their type, so all four are reals here (the integer defaults
      0 and 5 are the reals 0.0 and 5.0). */
  datatype NodeWeight = NodeWeight(
    historicalUsage: real,
    queueDepth: real,
    complexity: real,
    priority: real)

  const DefaultWeight: NodeWeight := NodeWeight(1.0, 0.0, 1.0, 5.0)

  /** `NodeWeight.total_weight` = usage · complexity · (1 + 0.1 · queue depth) · (priority / 5). */
  function TotalWeight(w: NodeWeight): real {
    w.historicalUsage * w.complexity * (1.0 + w.queueDepth * 0.1) * (w.priority / 5.0)
  }

  /** Factors for which the combined weight is a meaningful (non-negative) share. */
  predicate NonNegativeFactors(w: NodeWeight) {
    w.historicalUsage >= 0.0 && w.queueDepth >= 0.0 && w.complexity >= 0.0 && w.priority >= 0.0
  }

  lemma TotalWeightNonNegative(w: NodeWeight)
    requires NonNegativeFactors(w)
    ensures TotalWeight(w) >= 0.0
  {
    var base := w.historicalUsage * w.complexity;
    assert base >= 0.0;
    assert base * (1.0 + w.queueDepth * 0.1) >= 0.0;
  }

  /** The default weight is exactly 1, and (2, 5, 1.5, 10) gives exactly 9. */
  lemma TotalWeightExamples()
    ensures TotalWeight(DefaultWeight) == 1.0
    ensures TotalWeight(NodeWeight(2.0, 5.0, 1.5, 10.0)) == 9.0
  {
  }

  /** Raising the usage, complexity or priority factor never lowers the weight
      when the factors are non-negative. */
  lemma {:induction false} TotalWeightMonotone(w: NodeWeight, w2: NodeWeight)
    requires NonNegativeFactors(w)
    requires w2.queueDepth == w.queueDepth
    requires w.historicalUsage <= w2.historicalUsage
    requires w.complexity <= w2.complexity
    requires w.priority <= w2.priority
    ensures TotalWeight(w) <= TotalWeight(w2)
  {
    var q := 1.0 + w.queueDepth * 0.1;
    var a, a2 := w.historicalUsage * w.complexity, w2.historicalUsage * w2.complexity;
    assert a <= w2.historicalUsage * w.complexity <= a2;
    var b, b2 := a * q, a2 * q;
    assert b <= b2;
    assert b * (w.priority / 5.0) <= b2 * (w.priority / 5.0) <= b2 * (w2.priority / 5.0);
  }

  /** One leaf's allocation record (the record's own id and its never-set
      timestamp are left out: the map key is the id). */
  datatype AllocationRecord = AllocationRecord(granted: int, consumed: int) {
    /** `utilization`: 0 when nothing is allocated, else consumed / allocated. */
    function Utilization(): (u: real)
      ensures granted == 0 ==> u == 0.0
      ensures granted != 0 ==> u * (granted as real) == consumed as real
    {
      if granted == 0 then 0.0 else consumed as real / granted as real
    }

    function Remaining(): int {
      granted - consumed
    }
  }

  /** A keyword argument of `update_weight(node_id, **kwargs)`. */
  datatype WeightArg = WeightArg(name: string, value: real)

  /** How `update_weight`'s loop ends: all arguments applied, or AttributeError
      raised by `setattr` on the read-only `total_weight` property, after the
      arguments before it were already applied. */
  datatype UpdateEnd = Applied(weight: NodeWeight) | Raised(weight: NodeWeight)

  /** `setattr(weight, name, value)` for the dataclass fields; other names fail
      `hasattr` and are ignored. */
  function SetFactor(w: NodeWeight, name: string, value: real): (w2: NodeWeight)
    ensures name == "historical_usage" ==> w2 == w.(historicalUsage := value)
    ensures name == "queue_depth" ==> w2 == w.(queueDepth := value)
    ensures name == "complexity" ==> w2 == w.(complexity := value)
    ensures name == "priority" ==> w2 == w.(priority := value)
    ensures name !in {"historical_usage", "queue_depth", "complexity", "priority"} ==> w2 == w
  {
    if name == "historical_usage" then w.(historicalUsage := value)
    else if name == "queue_depth" then w.(queueDepth := value)
    else if name == "complexity" then w.(complexity := value)
    else if name == "priority" then w.(priority := value)
    else w
  }

  /** The whole `for key, value in kwargs.items()` loop. */
  function ApplyArgs(w: NodeWeight, args: seq<WeightArg>): UpdateEnd
    decreases |args|
  {
    if args == [] then Applied(w)
    else if args[0].name == "total_weight" then Raised(w)
    else ApplyArgs(SetFactor(w, args[0].name, args[0].value), args[1..])
  }

  /** Arguments that name no factor change nothing. */
  lemma {:induction false} UnknownArgsIgnored(w: NodeWeight, args: seq<WeightArg>)
    requires forall k :: 0 <= k < |args| ==>
      args[k].name !in {"historical_usage", "queue_depth", "complexity", "priority", "total_weight"}
    ensures ApplyArgs(w, args) == Applied(w)
    decreases |args|
  {
    if args != [] {
      UnknownArgsIgnored(w, args[1..]);
    }
  }

  /** The last assignment to a factor wins, and the other factors keep their values. */
  lemma {:induction false} ApplyArgsSetsUsageAndPriority(w: NodeWeight, usage: real, priority: real)
    ensures ApplyArgs(w, [WeightArg("historical_usage", usage), WeightArg("priority", priority)])
            == Applied(w.(historicalUsage := usage, priority := priority))
  {
    var args := [WeightArg("historical_usage", usage), WeightArg("priority", priority)];
    var w1 := w.(historicalUsage := usage);
    assert ApplyArgs(w, args) == ApplyArgs(w1, args[1..]);
    assert args[1..][1..] == [];
    assert ApplyArgs(w1, args[1..]) == ApplyArgs(w1.(priority := priority), []);
  }
}
