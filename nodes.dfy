/** The node model shared by every tree position: configuration, level guards,
    the per-node token account and the binary merge of two child results. */
module Nodes {
  import opened Values
  import opened Results

  datatype NodeLevel = Root | Level1 | Level2 | LeafLevel

  datatype NodeType = Orchestrator | Manager | Handler | Interface

  /** Static shape of a tree position (the free-form metadata map is not modelled). */
  datatype NodeConfig = NodeConfig(
    nodeId: string,
    name: string,
    level: NodeLevel,
    nodeType: NodeType,
    parentId: Option<string>,
    leftChildId: Option<string>,
    rightChildId: Option<string>,
    tokenBudget: int)

  /** The value of a token account: what was allocated and what was consumed. */
  datatype Account = Account(allocation: int, consumed: int) {
    function Remaining(): int {
      allocation - consumed
    }
  }

  /** Specification of `consume_tokens`: reject when the amount exceeds what
      remains (the account is left as it was), otherwise charge it. */
  function Consume(a: Account, amount: int): (r: (Account, bool))
    ensures r.1 <==> amount <= a.Remaining()
    ensures r.1 ==> r.0 == Account(a.allocation, a.consumed + amount)
    ensures !r.1 ==> r.0 == a
  {
    if amount > a.Remaining() then (a, false)
    else (Account(a.allocation, a.consumed + amount), true)
  }

  /** An accepted charge never drives the remaining tokens below zero. */
  lemma ConsumeKeepsRemainingNonNegative(a: Account, amount: int)
    requires a.Remaining() >= 0 && amount >= 0
    ensures Consume(a, amount).0.Remaining() >= 0
    ensures Consume(a, amount).0.Remaining() <= a.Remaining()
  {
  }

  /** A rejected charge can be retried after a reset with no allocation change only
      if it fits in the whole allocation: reset restores `Remaining` to `allocation`. */
  lemma ConsumeAfterReset(a: Account, amount: int)
    requires amount <= a.allocation
    ensures Consume(Account(a.allocation, 0), amount).1
  {
  }

  /** A tree node with its configuration and mutable token account. */
  class BSTNode {
    const config: NodeConfig
    var allocation: int
    var consumed: int

    constructor (config: NodeConfig)
      ensures this.config == config
      ensures allocation == config.tokenBudget && consumed == 0
      ensures TokensRemaining() == config.tokenBudget
    {
      this.config := config;
      allocation := config.tokenBudget;
      consumed := 0;
    }

    function Id(): string {
      config.nodeId
    }

    /** `is_leaf`: decided by the configured level alone. */
    predicate IsLeaf() {
      config.level == LeafLevel
    }

    function AccountValue(): Account
      reads this
    {
      Account(allocation, consumed)
    }

    /** `tokens_remaining`: never negative and never above the allocation while
        the consumption stays within the allocation, and zero exactly when the
        allocation is used up. */
    function TokensRemaining(): (r: int)
      reads this
      ensures r == AccountValue().Remaining()
      ensures 0 <= consumed <= allocation ==> 0 <= r <= allocation
      ensures r == 0 <==> consumed == allocation
    {
      allocation - consumed
    }

    method ConsumeTokens(amount: int) returns (ok: bool)
      modifies this`consumed
      ensures (AccountValue(), ok) == Consume(old(AccountValue()), amount)
    {
      if amount > allocation - consumed {
        return false;
      }
      consumed := consumed + amount;
      return true;
    }

    method ResetTokens()
      modifies this`consumed
      ensures consumed == 0 && allocation == old(allocation)
    {
      consumed := 0;
    }

    method SetAllocation(tokens: int)
      modifies this`allocation
      ensures allocation == tokens && consumed == old(consumed)
    {
      allocation := tokens;
    }
  }

  /** The two ways a node constructor can end: a node, or the ValueError message. */
  datatype Construction = Built(node: BSTNode) | Rejected(message: string)

  /** `LeafNode.__init__`: refuses any level other than LEAF. */
  method NewLeafNode(config: NodeConfig) returns (r: Construction)
    ensures r.Built? <==> config.level == LeafLevel
    ensures r.Rejected? ==> r.message == "LeafNode must have LEAF level"
    ensures r.Built? ==> fresh(r.node) && r.node.config == config && r.node.IsLeaf()
    ensures r.Built? ==> r.node.AccountValue() == Account(config.tokenBudget, 0)
  {
    if config.level != LeafLevel {
      return Rejected("LeafNode must have LEAF level");
    }
    var n := new BSTNode(config);
    return Built(n);
  }

  /** `InternalNode.__init__`: refuses the LEAF level. */
  method NewInternalNode(config: NodeConfig) returns (r: Construction)
    ensures r.Built? <==> config.level != LeafLevel
    ensures r.Rejected? ==> r.message == "InternalNode cannot have LEAF level"
    ensures r.Built? ==> fresh(r.node) && r.node.config == config && !r.node.IsLeaf()
    ensures r.Built? ==> r.node.AccountValue() == Account(config.tokenBudget, 0)
  {
    if config.level == LeafLevel {
      return Rejected("InternalNode cannot have LEAF level");
    }
    var n := new BSTNode(config);
    return Built(n);
  }

  /** `InternalNode.aggregate_results`: the merge fails only when both children
      failed; failed children still cost their tokens. */
  function AggregateResults(nodeId: string, left: NodeResult, right: NodeResult): (r: NodeResult)
    ensures r.tokensUsed == left.tokensUsed + right.tokensUsed
    ensures r.success <==> left.success || right.success
    ensures !r.success ==> r.error == Some("Both children failed: " + ShowError(left.error) + ", " + ShowError(right.error))
    ensures r.success ==> r.error == None && r.data == Dict(map["left" := left.data, "right" := right.data])
    ensures r.nodeId == nodeId
  {
    var combined := left.tokensUsed + right.tokensUsed;
    if !left.success && !right.success then
      NodeResult(false, Null,
                 Some("Both children failed: " + ShowError(left.error) + ", " + ShowError(right.error)),
                 combined, nodeId)
    else
      NodeResult(true, Dict(map["left" := left.data, "right" := right.data]), None, combined, nodeId)
  }

  /** The merge is symmetric in outcome and cost: swapping the children changes
      neither whether it succeeds nor what it costs. */
  lemma AggregateSymmetric(nodeId: string, a: NodeResult, b: NodeResult)
    ensures AggregateResults(nodeId, a, b).success == AggregateResults(nodeId, b, a).success
    ensures AggregateResults(nodeId, a, b).tokensUsed == AggregateResults(nodeId, b, a).tokensUsed
  {
  }
}
