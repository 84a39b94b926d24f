/** The weight-update scenario of the balancer on the built 15-node tree:
    concrete shares along M111's path before and after its weight is raised. */
module BalancerScenario {
  import opened Trees
  import opened Weights
  import opened Balancing

  /** At a handler with two leaves, the left leaf's share is the first split. */
  lemma PairLeftShare(p: Tree, top: string, a1: string, a2: string, budget: int, wt: string -> real)
    requires Pair(p, top, a1, a2) && a1 != a2
    ensures SubtreeWeight(p, wt) == wt(a1) + wt(a2)
    ensures ShareOf(p, budget, wt, LeftShare, a1) == LeftShare(budget, wt(a1), wt(a2))
  {
    assert LeafIdSet(p.right) == {a2};
  }

  /** At a manager, the first leaf's share is the split at the manager, then at its left handler. */
  lemma QuadFirstShare(q: Tree, top: string, a: string, a1: string, a2: string, b: string, b1: string, b2: string,
                       budget: int, wt: string -> real)
    requires Quad(q, top, a, a1, a2, b, b1, b2) && a1 != a2 && a1 != b1 && a1 != b2
    ensures SubtreeWeight(q, wt) == (wt(a1) + wt(a2)) + (wt(b1) + wt(b2))
    ensures ShareOf(q, budget, wt, LeftShare, a1)
            == LeftShare(LeftShare(budget, wt(a1) + wt(a2), wt(b1) + wt(b2)), wt(a1), wt(a2))
  {
    PairLeftShare(q.left, a, a1, a2, LeftShare(budget, wt(a1) + wt(a2), wt(b1) + wt(b2)), wt);
    assert SubtreeWeight(q.right, wt) == wt(b1) + wt(b2);
    assert LeafIdSet(q.right) == {b1, b2};
  }

  /** The weight of the application subtree M200: its four leaves summed. */
  function AppWeight(wt: string -> real): real {
    (wt("M211") + wt("M212")) + (wt("M221") + wt("M222"))
  }

  /** In the built tree, M111's share is three splits deep: at M000 between
      M100 and M200, at M100 between M110 and M120, at M110 between M111 and M112. */
  lemma BuiltM111Share(t: Tree, budget: int, wt: string -> real)
    requires HasBuiltLayout(t)
    ensures ShareOf(t, budget, wt, LeftShare, "M111")
            == LeftShare(LeftShare(LeftShare(budget, (wt("M111") + wt("M112")) + (wt("M121") + wt("M122")), AppWeight(wt)),
                                   wt("M111") + wt("M112"), wt("M121") + wt("M122")),
                         wt("M111"), wt("M112"))
  {
    var w100 := (wt("M111") + wt("M112")) + (wt("M121") + wt("M122"));
    QuadFirstShare(t.left, "M100", "M110", "M111", "M112", "M120", "M121", "M122",
                   LeftShare(budget, w100, AppWeight(wt)), wt);
    QuadFirstShare(t.right, "M200", "M210", "M211", "M212", "M220", "M221", "M222", 0, wt);
    assert LeafIdSet(t.right.left) == {"M211", "M212"} && LeafIdSet(t.right.right) == {"M221", "M222"};
    assert "M111" !in LeafIdSet(t.right);
  }

  /** The six splits on M111's path, before and after its weight is raised to 4. */
  lemma M111SplitValues()
    ensures LeftShare(100000, 4.0, 4.0) == 50000
    ensures LeftShare(50000, 2.0, 2.0) == 25000
    ensures LeftShare(25000, 1.0, 1.0) == 12500
    ensures LeftShare(100000, 7.0, 4.0) == 63636
    ensures LeftShare(63636, 5.0, 2.0) == 45454
    ensures LeftShare(45454, 4.0, 1.0) == 36363
  {
    assert 63636.0 <= 100000.0 * (7.0 / 11.0) < 63637.0;
    assert 45454.0 <= 63636.0 * (5.0 / 7.0) < 45455.0;
    assert 36363.0 <= 45454.0 * (4.0 / 5.0) < 36364.0;
  }

  /** A node without an entry in the weight table weighs 1, the default. */
  lemma UnweightedIsOne(weights: map<string, NodeWeight>, id: string)
    requires id !in weights
    ensures WeightView(weights)(id) == 1.0
  {
    TotalWeightExamples();
  }

  /** M111's share of 100000 when every leaf weighs 1. */
  lemma M111ShareAtEvenWeights(t: Tree, wt: string -> real)
    requires HasBuiltLayout(t)
    requires wt("M111") == 1.0 && wt("M112") == 1.0 && wt("M121") == 1.0 && wt("M122") == 1.0
    requires wt("M211") == 1.0 && wt("M212") == 1.0 && wt("M221") == 1.0 && wt("M222") == 1.0
    ensures ShareOf(t, 100000, wt, LeftShare, "M111") == 12500
  {
    BuiltM111Share(t, 100000, wt);
    assert ShareOf(t, 100000, wt, LeftShare, "M111")
           == LeftShare(LeftShare(LeftShare(100000, 4.0, 4.0), 2.0, 2.0), 1.0, 1.0);
    M111SplitValues();
  }

  /** M111's share of 100000 when M111 weighs 4 and every other leaf weighs 1. */
  lemma M111ShareAtRaisedWeight(t: Tree, wt: string -> real)
    requires HasBuiltLayout(t)
    requires wt("M111") == 4.0 && wt("M112") == 1.0 && wt("M121") == 1.0 && wt("M122") == 1.0
    requires wt("M211") == 1.0 && wt("M212") == 1.0 && wt("M221") == 1.0 && wt("M222") == 1.0
    ensures ShareOf(t, 100000, wt, LeftShare, "M111") == 36363
  {
    BuiltM111Share(t, 100000, wt);
    assert ShareOf(t, 100000, wt, LeftShare, "M111")
           == LeftShare(LeftShare(LeftShare(100000, 7.0, 4.0), 5.0, 2.0), 4.0, 1.0);
    M111SplitValues();
  }

  /** The table `weights` leaves the seven leaves other than M111 at the default weight 1. */
  lemma OthersUnweighted(weights: map<string, NodeWeight>)
    requires forall id :: id in weights ==> id == "M111"
    ensures WeightView(weights)("M112") == 1.0 && WeightView(weights)("M121") == 1.0
    ensures WeightView(weights)("M122") == 1.0 && WeightView(weights)("M211") == 1.0
    ensures WeightView(weights)("M212") == 1.0 && WeightView(weights)("M221") == 1.0
    ensures WeightView(weights)("M222") == 1.0
  {
    UnweightedIsOne(weights, "M112");
    UnweightedIsOne(weights, "M121");
    UnweightedIsOne(weights, "M122");
    UnweightedIsOne(weights, "M211");
    UnweightedIsOne(weights, "M212");
    UnweightedIsOne(weights, "M221");
    UnweightedIsOne(weights, "M222");
  }

  /** Without a weight table, each of the eight leaves weighs 1. */
  lemma DefaultViewValues()
    ensures var wt := WeightView(map[]);
      && wt("M111") == 1.0 && wt("M112") == 1.0 && wt("M121") == 1.0 && wt("M122") == 1.0
      && wt("M211") == 1.0 && wt("M212") == 1.0 && wt("M221") == 1.0 && wt("M222") == 1.0
  {
    var none: map<string, NodeWeight> := map[];
    OthersUnweighted(none);
    UnweightedIsOne(none, "M111");
  }

  /** With every leaf at weight 1, M111's path halves 100000 three times. */
  lemma DefaultM111Path(t: Tree)
    requires HasBuiltLayout(t)
    ensures ShareOf(t, 100000, WeightView(map[]), LeftShare, "M111") == 12500
  {
    DefaultViewValues();
    M111ShareAtEvenWeights(t, WeightView(map[]));
  }

  /** With default weights and 100000 tokens, M111 gets 12500 in the built tree. */
  lemma DefaultM111Share(t: Tree)
    requires HasBuiltLayout(t)
    ensures "M111" in BalancedShares(t, 100000, map[])
    ensures BalancedShares(t, 100000, map[])["M111"] == 12500
  {
    DefaultM111Path(t);
    BuiltLeaves(t);
    SharesAgree(t, 100000, WeightView(map[]), LeftShare, "M111");
  }

  /** With only M111 in the table, at usage 2 and priority 10, M111 weighs 4 and
      every other leaf weighs 1. */
  lemma RaisedViewValues()
    ensures var wt := WeightView(map["M111" := NodeWeight(2.0, 0.0, 1.0, 10.0)]);
      && wt("M111") == 4.0 && wt("M112") == 1.0 && wt("M121") == 1.0 && wt("M122") == 1.0
      && wt("M211") == 1.0 && wt("M212") == 1.0 && wt("M221") == 1.0 && wt("M222") == 1.0
  {
    OthersUnweighted(map["M111" := NodeWeight(2.0, 0.0, 1.0, 10.0)]);
    RaisedM111WeighsFour();
  }

  /** Usage 2 and priority 10 with the other factors at their defaults weigh 2 · 1 · 1 · 2 = 4. */
  lemma RaisedM111WeighsFour()
    ensures WeightView(map["M111" := NodeWeight(2.0, 0.0, 1.0, 10.0)])("M111") == 4.0
  {
    assert TotalWeight(NodeWeight(2.0, 0.0, 1.0, 10.0)) == 4.0;
  }

  /** With M111 at weight 4, its path gives it 36363 of 100000. */
  lemma RaisedM111Path(t: Tree)
    requires HasBuiltLayout(t)
    ensures ShareOf(t, 100000, WeightView(map["M111" := NodeWeight(2.0, 0.0, 1.0, 10.0)]), LeftShare, "M111") == 36363
  {
    RaisedViewValues();
    M111ShareAtRaisedWeight(t, WeightView(map["M111" := NodeWeight(2.0, 0.0, 1.0, 10.0)]));
  }

  /** With M111 weighing 4 (usage 2, priority 10) and 100000 tokens, M111 gets 36363. */
  lemma RaisedM111Share(t: Tree)
    requires HasBuiltLayout(t)
    ensures "M111" in BalancedShares(t, 100000, map["M111" := NodeWeight(2.0, 0.0, 1.0, 10.0)])
    ensures BalancedShares(t, 100000, map["M111" := NodeWeight(2.0, 0.0, 1.0, 10.0)])["M111"] == 36363
  {
    RaisedM111Path(t);
    BuiltLeaves(t);
    SharesAgree(t, 100000, WeightView(map["M111" := NodeWeight(2.0, 0.0, 1.0, 10.0)]), LeftShare, "M111");
  }

  /** The weight-update scenario on the built tree with 100000 tokens:
      `update_weight("M111", historical_usage=2.0, priority=10)` on a default
      weight gives (2, 0, 1, 10), and the next distribution gives M111
      strictly more than before (36363 instead of 12500). */
  lemma RaisingM111GivesItMore(t: Tree)
    requires HasBuiltLayout(t)
    ensures ApplyArgs(DefaultWeight, [WeightArg("historical_usage", 2.0), WeightArg("priority", 10.0)])
            == Applied(NodeWeight(2.0, 0.0, 1.0, 10.0))
    ensures "M111" in BalancedShares(t, 100000, map[])
    ensures "M111" in BalancedShares(t, 100000, map["M111" := NodeWeight(2.0, 0.0, 1.0, 10.0)])
    ensures BalancedShares(t, 100000, map[])["M111"] == 12500
    ensures BalancedShares(t, 100000, map["M111" := NodeWeight(2.0, 0.0, 1.0, 10.0)])["M111"] == 36363
    ensures BalancedShares(t, 100000, map[])["M111"]
            < BalancedShares(t, 100000, map["M111" := NodeWeight(2.0, 0.0, 1.0, 10.0)])["M111"]
  {
    ApplyArgsSetsUsageAndPriority(DefaultWeight, 2.0, 10.0);
    DefaultM111Share(t);
    RaisedM111Share(t);
  }
}
