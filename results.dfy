/** The result envelope every node returns, and the record of which child
    calls a node made while handling one request. */
module Results {
  import opened Values

  /** NodeResult: success flag, opaque payload, optional error, tokens used, originating node. */
  datatype NodeResult = NodeResult(
    success: bool,
    data: Value,
    error: Option<string>,
    tokensUsed: int,
    nodeId: string)

  /** A child's `process`, seen from its parent: a function from request to result.
      Leaves and lower subtrees are opaque; only their answers matter here. */
  type Child = Request -> NodeResult

  /** One call a node made to `self.left.process` or `self.right.process`, with its request. */
  datatype Call = ToLeft(req: Request) | ToRight(req: Request)

  /** What handling one request amounts to: the result and the child calls, in order. */
  datatype Outcome = Outcome(result: NodeResult, calls: seq<Call>)

  /** A failed result with an error message and no payload. */
  function Failure(nodeId: string, error: string, tokens: int): (r: NodeResult)
    ensures !r.success && r.data == Null && r.error == Some(error)
    ensures r.tokensUsed == tokens && r.nodeId == nodeId
  {
    NodeResult(false, Null, Some(error), tokens, nodeId)
  }

  /** The message of an exception raised inside a node's own logic (`str(e)`);
      its wording is Python's and is not modelled. */
  const FaultText: string := "internal fault"

  /** The failure a node's `except Exception` handler returns: only the base cost is charged. */
  function Fault(nodeId: string, baseTokens: int): NodeResult {
    Failure(nodeId, FaultText, baseTokens)
  }

  /** `f"Unknown action: {action}"` */
  function UnknownActionError(action: Value): string {
    "Unknown action: " + Show(action)
  }

  /** A result that forwards a child's outcome unchanged except for the token count
      and the originating node. */
  function Forward(nodeId: string, child: NodeResult, tokens: int): (r: NodeResult)
    ensures r.success == child.success && r.data == child.data && r.error == child.error
    ensures r.tokensUsed == tokens && r.nodeId == nodeId
  {
    NodeResult(child.success, child.data, child.error, tokens, nodeId)
  }

  /** Every answer of the child reports a non-negative token count (the result invariant). */
  ghost predicate NonNegativeTokens(child: Child) {
    forall req :: child(req).tokensUsed >= 0
  }
}
