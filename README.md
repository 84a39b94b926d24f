# Token-balanced binary agent tree

This project models the core of a 15-node binary tree of agents that runs a
small property-management back office.

- **Root.** The root orchestrator is M000.
- **Managers.** Under the root are two managers: infrastructure (M100) and
  application (M200).
- **Handlers.** Each manager owns two handlers:
  - config (M110)
  - database (M120)
  - MCP server (M210)
  - output (M220)
- **Leaves.** Each handler owns two leaf interfaces, M111 … M222.

The model covers four things.

- **The token balancer** splits an integer budget down the tree in proportion
  to subtree weights. It keeps one allocation record per leaf and supports
  lookups, consumption recording, and partial and full rebalancing. It is a
  class whose record and weight tables are map fields that its methods update
  in place. The module `BalancerScenario` works one weight update on the built
  tree through to concrete shares: raising M111's usage and priority takes its
  share of 100000 from 12500 to 36363.
- **The node account** is a `BSTNode` class with allocation and consumed
  counters. It also covers:
  - the level checks of the leaf and internal constructors;
  - the partial-failure merge of two child results.
- **The seven internal nodes' `process` dispatch.**
  - Children are modelled as functions from request to result.
  - Each answer is an `Outcome`: the result plus the ordered list of child
    calls made.
  - Fail-fast, "never called" and "always both" are therefore statements
    about the call trace.
  - Python's exceptions inside a node's own logic become the node's
    exception-handler result, which charges only the base cost.
- **The root's own state.**
  - The tree of node objects it builds.
  - Dot-path resolution, a loop proved against a recursive definition.
  - Leaf enumeration.
  - An append-only workflow history with sequential `WF-nnnn` ids.
  - The balancer it drives through `initialize` and `rebalance`.

Requests and result payloads are Python dictionaries. They are modelled as
`map<string, Value>`, where `Value` is a small JSON-like datatype. The
following Python behaviours are written out:

- `dict.get` with a default;
- truthiness;
- `len`;
- `{**a, **b}`;
- `int()` truncation;
- `f"{n:04d}"`.

Where the program's comments and its code disagree, the model follows the code:

- **`rebalance_full`.** The comments at `shared/utils/token_balancer.py:217`
  and `:234` describe recalculating the weights from the recorded usage. The
  code clears every allocation record first (`shared/utils/token_balancer.py:215`),
  so `_recalculate_all_weights` never finds a record and changes no weight.
  `Balancing.RecalculatedWithoutRecords` proves that nothing changes, and
  `Balancing.TokenBalancer.RebalanceFull` promises that the weights are left
  alone.
- **The weight cache.** `_cache_valid` is never set to true, so
  `_calculate_weight` always recomputes. The model has no cache.

## Model

| member | source | states |
|---|---|---|
| Values.Get | tree/M110/src/main.py:67 | `d.get(k, default)`: the stored value when the key is present (even a stored None), the default otherwise |
| Values.Len | tree/M120/src/main.py:183 | `len(v)` is defined exactly for strings, lists, dictionaries and sets; anything else raises |
| Values.Merge | tree/M200/src/main.py:216 | `{**a, **b}` succeeds exactly when both operands are dictionaries and then yields a dictionary |
| Values.MergeLookup | tree/M200/src/main.py:216 | a merged dictionary has exactly the keys of both operands; the right operand wins on a shared key, and the left one's value is kept otherwise |
| Values.Digits | tree/M000/src/main.py:323 | decimal digits of a natural number: at least one digit, all in '0'..'9', no leading zero |
| Values.Pad4 | tree/M000/src/main.py:323 | `f"{n:04d}"` has at least four characters, all decimal digits |
| Values.ParseDigitsOfDigits | tree/M000/src/main.py:323 | reading back the digits of n gives n |
| Values.ParseDigitsLeadingZeros | tree/M000/src/main.py:323 | leading zeros do not change the number a digit string denotes |
| Values.ZerosParse | tree/M000/src/main.py:323 | a string of zeros denotes 0 |
| Values.Pad4RoundTrip | tree/M000/src/main.py:323 | zero padding loses nothing: `Pad4(n)` still reads as n |
| Values.Pad4Injective | tree/M000/src/main.py:323 | different numbers pad to different strings |
| Results.Failure | shared/types/node.py:42-48 | a failed NodeResult carries the error, no data, the given tokens and node id |
| Results.Forward | tree/M000/src/main.py:218-224 | a forwarded child result keeps the child's success, data and error and sets the parent's tokens and id |
| Nodes.Consume | shared/types/node.py:74-79 | `consume_tokens`: accepted exactly when the amount fits in what remains; an accepted charge adds to `consumed`, and a rejected one leaves the account unchanged |
| Nodes.ConsumeKeepsRemainingNonNegative | shared/types/node.py:74-79 | with a non-negative remainder and amount, the remainder stays non-negative and never grows |
| Nodes.ConsumeAfterReset | shared/types/node.py:74-83 | after `reset_tokens`, any charge no larger than the allocation is accepted |
| Nodes.BSTNode.constructor | shared/types/node.py:54-61 | a new node holds its configuration, `allocation = token_budget` and `consumed = 0` |
| Nodes.BSTNode.TokensRemaining | shared/types/node.py:70-72 | `tokens_remaining` is the account's remainder: between 0 and the allocation while consumption stays within the allocation, and 0 exactly when the allocation is used up |
| Nodes.BSTNode.ConsumeTokens | shared/types/node.py:74-79 | the new account and the returned flag are exactly what `Consume` specifies for the old account |
| Nodes.BSTNode.ResetTokens | shared/types/node.py:81-83 | `consumed` becomes 0; the allocation is unchanged |
| Nodes.BSTNode.SetAllocation | shared/types/node.py:85-87 | the allocation becomes the given value; `consumed` is unchanged |
| Nodes.NewLeafNode | shared/types/node.py:103-106 | builds a leaf exactly when the level is LEAF, with a fresh account; otherwise it is rejected with "LeafNode must have LEAF level" |
| Nodes.NewInternalNode | shared/types/node.py:137-140 | builds a node exactly when the level is not LEAF; otherwise it is rejected with "InternalNode cannot have LEAF level" |
| Nodes.AggregateResults | shared/types/node.py:142-159 | tokens are always the sum of both children's; fails exactly when both children fail, with "Both children failed: l, r"; otherwise data is `{left, right}` |
| Nodes.AggregateSymmetric | shared/types/node.py:142-159 | swapping the children changes neither the merge's success nor its cost |
| Trees.CollectLeaves | tree/M000/src/main.py:93-106 | `_collect_all_leaves` always yields at least one leaf (its contents are stated by `CollectLeavesExact`) |
| Trees.LeafIds | tree/M000/src/main.py:93-106 | the collected leaves' ids, position by position |
| Trees.CollectLeavesExact | tree/M000/src/main.py:93-106 | on a tree with unique ids, the collected leaves are exactly the tree's leaves, and no id repeats |
| Trees.SiblingLeavesDisjoint | tree/M000/src/main.py:72-80 | the two subtrees of a node share no leaf object and no leaf id |
| Trees.SubtreeInherits | tree/M000/src/main.py:108-126 | a subtree of a well-formed tree is well-formed, and its leaves are among the tree's |
| Trees.Split | tree/M000/src/main.py:114 | `path.split(".")` yields at least one piece |
| Trees.SplitJoin | tree/M000/src/main.py:114 | splitting pieces joined by the separator gives the pieces back when none contains it |
| Trees.ResolveGivesSubtree | tree/M000/src/main.py:108-126 | a resolved path names a node inside the tree walked |
| Trees.BuiltLeaves | tree/M000/src/main.py:93-106 | the built tree's leaves are exactly M111, M112, M121, M122, M211, M212, M221, M222, in that order |
| Trees.ResolveM111 | tree/M000/src/main.py:108-126 | "M100.M110.M111" resolves to the leaf M111 |
| Weights.TotalWeightNonNegative | shared/utils/token_balancer.py:28-35 | non-negative factors give a non-negative `total_weight` |
| Weights.TotalWeightExamples | shared/utils/token_balancer.py:28-35 | the default weight is exactly 1.0, and (2, 5, 1.5, 10) gives exactly 9.0 |
| Weights.TotalWeightMonotone | shared/utils/token_balancer.py:28-35 | raising usage, complexity or priority never lowers `total_weight` |
| Weights.AllocationRecord.Utilization | shared/utils/token_balancer.py:45-50 | 0 when nothing is allocated; otherwise utilisation times allocated equals consumed |
| Weights.SetFactor | shared/utils/token_balancer.py:168-172 | `setattr` on one of the four factors replaces exactly that factor; any other name leaves the weight unchanged |
| Weights.UnknownArgsIgnored | shared/utils/token_balancer.py:168-172 | keyword arguments that name no factor change nothing |
| Weights.ApplyArgsSetsUsageAndPriority | shared/utils/token_balancer.py:161-172 | setting `historical_usage` and `priority` sets exactly those two factors |
| Balancing.TruncTowardZero | shared/utils/token_balancer.py:119 | a non-negative x truncates to the largest integer not above x; a negative x truncates to the smallest integer not below x |
| Balancing.LeftFractionBounds | shared/utils/token_balancer.py:112-119 | the left fraction lies in [0, 1], and is 0 when both sides weigh nothing |
| Balancing.LeftFractionGrowsWithLeft | shared/utils/token_balancer.py:112-119 | more left weight never lowers the left fraction |
| Balancing.LeftFractionShrinksWithRight | shared/utils/token_balancer.py:112-119 | more right weight never raises the left fraction |
| Balancing.LeftShareBounds | shared/utils/token_balancer.py:112-120 | the left share lies in [0, B], so the right share `B - left` does too; with zero total weight the left gets 0 and the right gets B |
| Balancing.LeftShareIsFloor | shared/utils/token_balancer.py:119 | for non-negative inputs, the left share is the floor of B times the fraction |
| Balancing.LeftShareMonotone | shared/utils/token_balancer.py:112-120 | more budget or more left weight never lowers the left share |
| Balancing.RightShareMonotone | shared/utils/token_balancer.py:112-120 | more budget or more right weight never lowers the right share `B - left` |
| Balancing.LeftShareIsWellBehaved | shared/utils/token_balancer.py:112-120 | the split rule keeps both sides within the budget and follows the weights |
| Balancing.SubtreeWeightNonNegative | shared/utils/token_balancer.py:127-153 | `_calculate_weight` of a subtree whose leaves weigh ≥ 0 is ≥ 0 |
| Balancing.SubtreeWeightMonotone | shared/utils/token_balancer.py:127-153 | heavier leaves never give a lighter subtree |
| Balancing.SubtreeWeightFrame | shared/utils/token_balancer.py:127-153 | a subtree's weight depends only on its own leaves' weights |
| Balancing.SharesKeys | shared/utils/token_balancer.py:99-125 | only leaves get a share, and every leaf of the subtree gets one |
| Balancing.SharesAgree | shared/utils/token_balancer.py:99-125 | each leaf's share is the one its root-to-leaf path of splits gives |
| Balancing.SharesBounded | shared/utils/token_balancer.py:99-125 | with non-negative weights, every leaf's share lies in [0, B] |
| Balancing.SplitConserves | shared/utils/token_balancer.py:99-125 | conservation: after `_distribute(node, B)` the leaves under the node hold exactly B, whatever was recorded before |
| Balancing.SplitRecorded | shared/utils/token_balancer.py:99-125 | distributing over existing records replaces exactly the subtree's leaves' records, keeps all others, and conserves B |
| Balancing.ShareMonotone | shared/utils/token_balancer.py:99-125 | raising one leaf's weight (others unchanged) and the budget never lowers that leaf's share |
| Balancing.RaisedWeightNeverLowersShare | shared/utils/token_balancer.py:161-172 | raising a leaf's `historical_usage`, `complexity` or `priority` (queue depth unchanged, all factors non-negative) and redistributing never gives it fewer tokens |
| Balancing.Adjusted | shared/utils/token_balancer.py:235-241 | usage feedback: above 80% utilisation usage × 1.1, below 20% × 0.9, otherwise unchanged; the other factors are untouched |
| Balancing.RecalculatedEffect | shared/utils/token_balancer.py:225-247 | `_recalculate_all_weights` adjusts exactly the nodes of the subtree that have a record, once each, by their own utilisation |
| Balancing.RecalculatedWithoutRecords | shared/utils/token_balancer.py:213-223 | with no records, the weight pass changes no weight (why `rebalance_full` applies no feedback) |
| Balancing.SubtreeBudgetFrame | shared/utils/token_balancer.py:249-256 | `_get_subtree_budget` depends only on the records of the subtree's own leaves |
| Balancing.RebalancedConserves | shared/utils/token_balancer.py:183-203 | a partial rebalance keeps the subtree's total |
| Balancing.RebalancedKeepsOthers | shared/utils/token_balancer.py:183-203 | a partial rebalance keeps every record outside the subtree, and gives the subtree's leaves fresh records with nothing consumed |
| Balancing.RecordedAdds | shared/utils/token_balancer.py:174-181 | recording 500 and then 300 equals recording 800: consumption adds up |
| Balancing.RecordedKeepsAllocations | shared/utils/token_balancer.py:174-181 | recording consumption never changes any allocation or subtree budget |
| Balancing.FreshReport | shared/utils/token_balancer.py:274-288 | a freshly split leaf reports its share, 0 consumed, 0 utilisation and its whole share remaining |
| Balancing.FreshSplit | shared/utils/token_balancer.py:78-89 | splitting into an empty table records exactly the leaves, which hold the whole budget |
| Balancing.BuiltTreeSplit | shared/utils/token_balancer.py:78-89 | on the built tree, exactly the eight leaves get records, and together they hold the whole budget |
| Balancing.FullRebalanceRepeatable | shared/utils/token_balancer.py:213-223 | the weight pass of `rebalance_full` runs on cleared records, so the weights come out as they went in, and a second `rebalance_full` right after the first returns the same map |
| BalancerScenario.BuiltM111Share | shared/utils/token_balancer.py:111-123 | on the built tree, M111's share is the split at M000 (M100 against M200), then at M100 (M110 against M120), then at M110 (M111 against M112) |
| BalancerScenario.M111SplitValues | shared/utils/token_balancer.py:112-120 | the six `int(B · lw / tw)` splits on M111's path: 50000, 25000, 12500 with equal weights; 63636, 45454, 36363 with M111 at weight 4 |
| BalancerScenario.DefaultM111Share | shared/tests/test_token_balancer.py:122-127 | with no weight table and 100000 tokens, M111 gets 12500 |
| BalancerScenario.RaisedM111Share | shared/tests/test_token_balancer.py:129-133 | with M111's weight set to usage 2 and priority 10 (total weight 4) and 100000 tokens, M111 gets 36363 |
| BalancerScenario.RaisingM111GivesItMore | shared/tests/test_token_balancer.py:120-136 | `update_weight("M111", historical_usage=2.0, priority=10)` on a default weight gives (2, 0, 1, 10), and the next distribution gives M111 strictly more than the first one did: 36363 against 12500 |
| Balancing.TokenBalancer.constructor | shared/utils/token_balancer.py:59-64 | the balancer starts with the given budget, no records and no weights |
| Balancing.TokenBalancer.GetAllocation | shared/utils/token_balancer.py:66-76 | the recorded allocation, or 0 for an unknown node; never fails |
| Balancing.TokenBalancer.Distribute | shared/utils/token_balancer.py:91-125 | returns B; records the weighted split of B over the subtree's leaves on top of the old records; sets each leaf's own allocation to its record; touches no other node |
| Balancing.TokenBalancer.BalanceTokens | shared/utils/token_balancer.py:78-89 | splits the whole budget; the leaves then hold exactly the total budget; returns the `{id: allocated}` view; weights unchanged |
| Balancing.TokenBalancer.UpdateWeight | shared/utils/token_balancer.py:161-172 | the node's weight becomes the arguments applied in order (unknown names ignored); `total_weight` raises after the earlier arguments took effect; records untouched |
| Balancing.TokenBalancer.RecordConsumption | shared/utils/token_balancer.py:174-181 | adds to `consumed` of an existing record; an unknown node is a no-op |
| Balancing.TokenBalancer.ClearSubtreeAllocations | shared/utils/token_balancer.py:258-267 | removes exactly the records of the subtree's leaves |
| Balancing.TokenBalancer.RebalancePartial | shared/utils/token_balancer.py:183-203 | None gives `{}` and changes nothing; otherwise the subtree's former total is split again over its leaves, with other records kept, and each leaf of the subtree holds its new record's allocation |
| Balancing.TokenBalancer.RecalculateAllWeights | shared/utils/token_balancer.py:225-247 | the weights become the pre-order usage-feedback pass over the tree |
| Balancing.TokenBalancer.RebalanceFull | shared/utils/token_balancer.py:205-223 | weights unchanged; records become exactly a fresh split of the whole budget over the tree's leaves, whose keys are exactly those leaves and which hold the total; each leaf holds its new record's allocation; the returned view is the allocations |
| Balancing.TokenBalancer.GetUtilizationReport | shared/utils/token_balancer.py:274-288 | one entry per record with allocated, consumed, utilisation and remaining = allocated − consumed |
| ConfigHandler.Process | tree/M110/src/main.py:54-197 | `ConfigHandlerNode.process`; every answer comes from M110 |
| ConfigHandler.DefaultActionIsLoadConfig | tree/M110/src/main.py:67 | a request without an action is handled as `load_config` |
| ConfigHandler.UnknownActionRule | tree/M110/src/main.py:177-183 | no child call exactly when the action is unknown; then "Unknown action: X" at 5 tokens |
| ConfigHandler.LoadConfigRule | tree/M110/src/main.py:71-94 | copies the YAML leaf's success, data and error; logs on the right; 5 + config + 5 tokens |
| ConfigHandler.SaveConfigRule | tree/M110/src/main.py:96-121 | success equals the write's; 5 + config + 5 tokens; no error passed on |
| ConfigHandler.LogRule | tree/M110/src/main.py:123-138 | one log call with level `log_level` (default INFO) and node id `source_node` (default M110); 5 + log tokens |
| ConfigHandler.InitSystemRule | tree/M110/src/main.py:140-175 | the start line, then exactly one of the success or error lines; success equals the read's; 5 + config + 15 tokens |
| ConfigHandler.ResultIgnoresLogWriter | tree/M110/src/main.py:71-175 | outside `log`, the log writer's answers never affect the result |
| ConfigHandler.CostCoversBase | tree/M110/src/main.py:54-197 | with children reporting non-negative costs, every answer costs ≥ 5, and every known action other than `log` costs ≥ 10 |
| DatabaseHandler.Rows | tree/M120/src/main.py:144-152 | `for row in data` visits a list's items in order, a string's characters, a dictionary's keys or a set's elements in the given iteration order; None, booleans and integers raise |
| DatabaseHandler.RowsCountLen | tree/M120/src/main.py:144-152 | when the iteration order names each key or element once, iteration is defined exactly when `len` is, visits `len(data)` rows, and visits every key of a dictionary and every element of a set |
| DatabaseHandler.AddTenantCalls | tree/M120/src/main.py:144-152 | one `add_tenant` call to the SQL leaf per row, in row order |
| DatabaseHandler.ImportRows | tree/M120/src/main.py:144-152 | the import loop hands every row over in order and counts them |
| DatabaseHandler.ImportExcel | tree/M120/src/main.py:127-158 | `import_excel`; every answer comes from M120 |
| DatabaseHandler.ImportExcelSteps | tree/M120/src/main.py:127-158 | the step-by-step import, with its row loop, gives the same answer as `ImportExcel` for every request, child and iteration order |
| DatabaseHandler.IdSet | tree/M120/src/main.py:193-194 | `{t.get("id") for t in (data or [])}`: empty for a falsy payload; only hashable ids |
| DatabaseHandler.InSyncIffNoDifferences | tree/M120/src/main.py:193-205 | `in_sync` holds exactly when both difference sets are empty |
| DatabaseHandler.SyncCountsPartition | tree/M120/src/main.py:193-205 | each count is that side's only-here ids plus the shared ids |
| DatabaseHandler.Process | tree/M120/src/main.py:54-245 | `DatabaseHandlerNode.process`; every answer comes from M120 |
| DatabaseHandler.DefaultsAreGetTenantsFromDatabase | tree/M120/src/main.py:65-67 | no action means `get_tenants`, and no source means the database, whose answer is forwarded at 10 + db tokens |
| DatabaseHandler.UnknownActionRule | tree/M120/src/main.py:231-237 | no child call exactly when the action is unknown; then "Unknown action: X" at 10 tokens |
| DatabaseHandler.GetTenantsRouting | tree/M120/src/main.py:70-100 | "excel" reads Excel, "database" reads SQL, anything else reads both; the OR-merge succeeds when either does, puts [] for a failed side, and charges both |
| DatabaseHandler.AddTenantRule | tree/M120/src/main.py:102-125 | always writes to SQL; mirrors to Excel exactly when `sync_excel` is truthy (default true); SQL decides success; 10 + db + 20 tokens |
| DatabaseHandler.ImportExcelRule | tree/M120/src/main.py:127-158 | succeeds exactly when the sheet is read and iterable (a list, string, dictionary or set); every row goes to SQL in iteration order; `imported` is the row count; 10 + read + 20 per row; a failed read costs 10 + read with no SQL call; a non-iterable payload faults at 10 |
| DatabaseHandler.ImportExcelCountsLen | tree/M120/src/main.py:127-158 | after a successful read, the import succeeds exactly when `len(data)` is defined, and then makes 1 + `len(data)` calls, reports `imported` = `len(data)` and costs 10 + read + 20 · `len(data)` |
| DatabaseHandler.ExportExcelRule | tree/M120/src/main.py:160-186 | fail-fast on the SQL read; then Excel decides success and `exported` is the length of the SQL payload |
| DatabaseHandler.SyncRule | tree/M120/src/main.py:188-209 | reads Excel then SQL; succeeds exactly when both id sets can be built, and then reports `SyncReport` of them at 10 + both reads; otherwise faults at 10 |
| DatabaseHandler.QueryRule | tree/M120/src/main.py:211-229 | forwards the SQL text (default "") and parameters and copies the answer at 10 + db tokens |
| DatabaseHandler.CostCoversBase | tree/M120/src/main.py:54-245 | with children reporting non-negative costs, every answer costs ≥ 10 |
| ServerHandler.EnhancedParams | tree/M210/src/main.py:133-137 | the tool parameters gain `prompt_context` = the prompt's `content` (default {}); raises unless both are dictionaries |
| ServerHandler.Process | tree/M210/src/main.py:54-207 | `ServerHandlerNode.process`; every answer comes from M210 |
| ServerHandler.DefaultActionIsListCapabilities | tree/M210/src/main.py:67 | a request without an action is handled as `list_capabilities` |
| ServerHandler.UnknownActionRule | tree/M210/src/main.py:193-199 | no child call exactly when the action is unknown; then "Unknown action: X" at 15 tokens |
| ServerHandler.CallToolRule | tree/M210/src/main.py:71-89 | one `call` to the tools leaf, whose answer is copied at 15 + tool tokens |
| ServerHandler.GetResourceRule | tree/M210/src/main.py:91-109 | the resources leaf is asked to render exactly when variables are truthy, and to fetch otherwise |
| ServerHandler.PromptFailureShortCircuits | tree/M210/src/main.py:111-131 | a failed prompt ends the request before the tool is called: "Failed to get prompt: e" at 15 + prompt tokens |
| ServerHandler.PromptThenTool | tree/M210/src/main.py:111-156 | after a prompt, the tool gets the prompt context and decides success; 15 + prompt + tool tokens |
| ServerHandler.MalformedPromptFaults | tree/M210/src/main.py:133-137 | parameters or a prompt payload that are not dictionaries fault at the base cost without calling the tool |
| ServerHandler.BothChildrenRules | tree/M210/src/main.py:158-191 | `list_capabilities` succeeds exactly when both leaves do; `status` always succeeds and reports healthy exactly when both leaves do |
| ServerHandler.CostCoversBase | tree/M210/src/main.py:54-207 | with children reporting non-negative costs, every answer costs ≥ 15 |
| OutputHandler.ReportPayload | tree/M220/src/main.py:136-140 | a list payload is wrapped as `tenants` (balance summary) or `payments` (payment history), and a non-list becomes []; other types get the payload unchanged |
| OutputHandler.Process | tree/M220/src/main.py:54-223 | `OutputHandlerNode.process`; every answer comes from M220 |
| OutputHandler.DefaultActionIsApiRequest | tree/M220/src/main.py:67 | a request without an action is handled as `api_request` |
| OutputHandler.UnknownActionRule | tree/M220/src/main.py:209-215 | no child call exactly when the action is unknown; then "Unknown action: X" at 10 tokens |
| OutputHandler.SingleLeafRules | tree/M220/src/main.py:71-114 | `api_request` goes to the web leaf and `generate_pdf` to the PDF leaf; the answer is copied at 10 + leaf tokens |
| OutputHandler.FetchFailureShortCircuits | tree/M220/src/main.py:116-132 | a failed fetch ends the request before any PDF: "API fetch failed: e" at 10 + fetch tokens |
| OutputHandler.FetchThenReport | tree/M220/src/main.py:116-159 | after a fetch, the PDF leaf gets the reshaped payload and decides success; 10 + fetch + pdf tokens |
| OutputHandler.MultiAndListRules | tree/M220/src/main.py:161-207 | `multi_output` calls both leaves and succeeds exactly when both do; `list_outputs` always succeeds |
| OutputHandler.ReportPayloadKeepsLists | tree/M220/src/main.py:136-140 | the summary and history payloads hold exactly one list, which is the payload itself when that was a list |
| OutputHandler.CostCoversBase | tree/M220/src/main.py:54-223 | with children reporting non-negative costs, every answer costs ≥ 10 |
| InfrastructureManager.Initialize | tree/M100/src/main.py:70-114 | the `initialize` branch; every answer comes from M100 |
| InfrastructureManager.GetTenantData | tree/M100/src/main.py:116-151 | the `get_tenant_data` branch; every answer comes from M100 |
| InfrastructureManager.SaveTenant | tree/M100/src/main.py:153-180 | the `save_tenant` branch; every answer comes from M100 |
| InfrastructureManager.Handle | tree/M100/src/main.py:55-256 | `InfrastructureManagerNode.process` given the initialized flag; every answer comes from M100 |
| InfrastructureManager.InfrastructureManager.constructor | tree/M100/src/main.py:32-46 | a new manager is not initialized |
| InfrastructureManager.InfrastructureManager.Process | tree/M100/src/main.py:55-256 | the answer and the new flag are exactly what `Handle` gives for the old flag |
| InfrastructureManager.OnlyInitializeChangesFlag | tree/M100/src/main.py:55-256 | only `initialize` changes `_system_initialized` |
| InfrastructureManager.InitializeRule | tree/M100/src/main.py:70-114 | a failed config step fails fast (no database call, flag kept, 20 + config); otherwise the flag becomes the database's success, the log line carrying that status is the third call, success also needs a sized payload, and it costs 20 + config + db |
| InfrastructureManager.StatusReportsFlag | tree/M100/src/main.py:203-216 | `system_status` makes no child call, always succeeds at exactly 20 tokens, and reports the flag |
| InfrastructureManager.InitializeThenStatus | tree/M100/src/main.py:70-216 | after an `initialize` past its config step, status reports initialized exactly when the database answered |
| InfrastructureManager.UnknownActionRule | tree/M100/src/main.py:237-243 | no child call exactly for an unknown action or `system_status`; an unknown action fails with "Unknown action: X" at 20 tokens |
| InfrastructureManager.DefaultActionIsSystemStatus | tree/M100/src/main.py:66 | a request without an action calls no child and succeeds, as a status query does |
| InfrastructureManager.GetTenantDataRule | tree/M100/src/main.py:116-151 | queries one tenant for a truthy id; loads config exactly when `include_config`; the database decides success; a failed read gives []; 20 + db (+ config) tokens |
| InfrastructureManager.SaveTenantRule | tree/M100/src/main.py:153-180 | logs at INFO or ERROR by the database's success, copies its answer at 20 + db + 10; a non-dictionary tenant faults at 20 |
| InfrastructureManager.ConfigUpdateAndSyncRule | tree/M100/src/main.py:182-235 | `config_update` copies the config save at 20 + config; `sync_data` logs the report and costs 20 + sync + 5 |
| InfrastructureManager.CostCoversBase | tree/M100/src/main.py:55-256 | with children reporting non-negative costs, every answer costs ≥ 20 |
| ApplicationManager.Route | tree/M200/src/main.py:72-113 | a route exists exactly for api, tool and report; only tool goes to the server handler |
| ApplicationManager.RenderReport | tree/M200/src/main.py:131-149 | the PDF call comes last in the trace |
| ApplicationManager.GenerateReport | tree/M200/src/main.py:115-149 | the `generate_report` branch; every answer comes from M200 |
| ApplicationManager.TenantRecord | tree/M200/src/main.py:215-216 | a failed tool step keeps the fetched record; a successful one overlays its `output`, which raises unless both are dictionaries |
| ApplicationManager.FullPipeline | tree/M200/src/main.py:181-238 | the `full_pipeline` branch; every answer comes from M200 |
| ApplicationManager.Process | tree/M200/src/main.py:55-287 | `ApplicationManagerNode.process`; every answer comes from M200 |
| ApplicationManager.DefaultActionIsStatus | tree/M200/src/main.py:68 | a request without an action asks the server handler for status and succeeds |
| ApplicationManager.UnknownActionRule | tree/M200/src/main.py:273-279 | no child call exactly for an unknown action or a `process_request` with an unknown request type; an unknown action fails with "Unknown action: X" at 25 tokens |
| ApplicationManager.ProcessRequestRule | tree/M200/src/main.py:72-113 | tool → server handler; api and report → output handler; the answer is copied at 25 + child; any other type fails with "Unknown request type" at 25 and no call |
| ApplicationManager.GenerateReportRule | tree/M200/src/main.py:115-149 | the left child is called only when `analyze` is truthy; a successful analysis is attached under `analysis`; PDF success decides; 25 + (tool) + pdf tokens |
| ApplicationManager.AnalysisToolChoice | tree/M200/src/main.py:124 | payment histories use `analyze_payments`; everything else uses `calculate_balance` |
| ApplicationManager.ExecuteToolRule | tree/M200/src/main.py:151-179 | `execute_with_prompt` exactly when `use_prompt` is truthy; the answer is copied at 25 + child |
| ApplicationManager.PipelineFetchFailure | tree/M200/src/main.py:190-203 | a failed API fetch short-circuits with no other call at 25 + api |
| ApplicationManager.PipelineRunsInOrder | tree/M200/src/main.py:191-238 | fetch, tool and PDF run in that order; a tool failure does not abort; the PDF decides success; the merged record is reported; 25 + api + tool + pdf |
| ApplicationManager.PipelineToolOverridesFetch | tree/M200/src/main.py:215-216 | fields the tool reports replace fetched ones; every other fetched field is kept, and nothing else appears |
| ApplicationManager.CapabilitiesAndStatusRule | tree/M200/src/main.py:240-271 | both always succeed; a failed child's payload becomes {}; 25 plus the children's tokens |
| ApplicationManager.CostCoversBase | tree/M200/src/main.py:55-287 | with children reporting non-negative costs, every answer costs ≥ 25 |
| RootOrchestrator.NewLeaf | shared/types/node.py:103-107 | a fresh well-formed leaf with its configuration |
| RootOrchestrator.NewBranch | shared/types/node.py:137-141 | a fresh internal node over two subtrees with disjoint ids |
| RootOrchestrator.BuildManager | tree/M100/src/main.py:48-53 | a manager subtree in the given seven configurations, with exactly their ids, well-formed, with fresh leaves |
| RootOrchestrator.BuildInfrastructure | tree/M100/src/main.py:32-53 | M100 over M110 (M111, M112) and M120 (M121, M122) |
| RootOrchestrator.BuildApplication | tree/M200/src/main.py:32-54 | M200 over M210 (M211, M212) and M220 (M221, M222) |
| RootOrchestrator.ManagerIdsDisjoint | tree/M000/src/main.py:72-80 | the two managers' subtrees share no id, and neither holds M000 |
| RootOrchestrator.BuildTree | tree/M000/src/main.py:49-80 | the fixed 15-node layout, well-formed, every position configured as built, with fresh leaves |
| RootOrchestrator.WorkflowId | tree/M000/src/main.py:323 | starts with `WF-` and is at least seven characters long (three plus four padded digits) |
| RootOrchestrator.WorkflowIdInjective | tree/M000/src/main.py:323 | different history positions get different workflow ids |
| RootOrchestrator.SequentialIdsDistinct | tree/M000/src/main.py:323-363 | a history with sequential ids never repeats an id |
| RootOrchestrator.FirstTenant | tree/M000/src/main.py:335 | whenever a first tenant is returned it is a dictionary; anything else makes the merge raise |
| RootOrchestrator.ReportInput | tree/M000/src/main.py:333-335 | the record the tenant report continues with is a dictionary, or the workflow raises |
| RootOrchestrator.TenantReport | tree/M000/src/main.py:316-376 | `_execute_tenant_report_workflow`; every answer comes from M000 |
| RootOrchestrator.DataSync | tree/M000/src/main.py:378-391 | `_execute_data_sync_workflow`; every answer comes from M000 |
| RootOrchestrator.FullPipeline | tree/M000/src/main.py:393-445 | `_execute_full_pipeline`; every answer comes from M000 |
| RootOrchestrator.Workflow | tree/M000/src/main.py:180-198 | `full_workflow` dispatch; every answer comes from M000 |
| RootOrchestrator.RouteRequest | tree/M000/src/main.py:200-224 | `route_request`; every answer comes from M000 |
| RootOrchestrator.AllocationsValue | tree/M000/src/main.py:230-242 | the allocation dictionary has one integer entry per leaf record |
| RootOrchestrator.RebalanceOutcome | tree/M000/src/main.py:226-247 | the `rebalance` answer; it always comes from M000 |
| RootOrchestrator.InitializeOutcome | tree/M000/src/main.py:144-178 | the `initialize` answer; it always comes from M000 |
| RootOrchestrator.StatusOutcome | tree/M000/src/main.py:249-276 | the `status` answer; it always comes from M000 |
| RootOrchestrator.CapabilitiesOutcome | tree/M000/src/main.py:278-298 | the `get_capabilities` answer; it always comes from M000 |
| RootOrchestrator.Respond | tree/M000/src/main.py:128-314 | `RootOrchestratorNode.process` as a function of request, history and the balancer's view |
| RootOrchestrator.RespondByAction | tree/M000/src/main.py:128-298 | which branch answers each of the six actions |
| RootOrchestrator.AllocationsByAction | tree/M000/src/main.py:128-314 | only `initialize` and `rebalance` touch the leaf records |
| RootOrchestrator.InitializeEffect | tree/M000/src/main.py:144-174 | `initialize` redistributes the whole budget exactly when the infrastructure comes up |
| RootOrchestrator.RebalanceScopeEffect | tree/M000/src/main.py:226-247 | "full" resplits the whole budget; a target path that resolves to nothing gives `{}` and changes nothing; a resolved target, or none, rebalances that subtree; an unsplittable target changes nothing |
| RootOrchestrator.DefaultActionIsStatus | tree/M000/src/main.py:140-141 | a request without an action is a status query |
| RootOrchestrator.UnknownActionRule | tree/M000/src/main.py:300-306 | an unknown action fails with "Unknown action: X" at 30 tokens, no call, and the history unchanged |
| RootOrchestrator.TenantReportHistory | tree/M000/src/main.py:356-363 | a tenant report past its first step appends exactly one record, with the next id and the report's success and tokens |
| RootOrchestrator.HistoryGrowsOnlyByReports | tree/M000/src/main.py:128-376 | the history changes exactly on a tenant report past its first step, and then by exactly one record at the end |
| RootOrchestrator.AppendKeepsSequentialIds | tree/M000/src/main.py:323-363 | appending the record with the next id keeps ids sequential |
| RootOrchestrator.RespondKeepsSequentialIds | tree/M000/src/main.py:128-376 | every request keeps the history's ids sequential (`WF-0001`, `WF-0002`, …) |
| RootOrchestrator.ReportInputRule | tree/M000/src/main.py:333-335 | the first tenant's fields win over the caller's data; a failed step keeps the caller's data (or {} when falsy); a missing first tenant raises |
| RootOrchestrator.TenantReportRule | tree/M000/src/main.py:316-376 | all three calls in order; the report gets `processed` when the tool succeeded; success is the report's; tokens are 50 + the three steps (no 30); the data carries the new id |
| RootOrchestrator.DataSyncRule | tree/M000/src/main.py:378-391 | mirrors the infrastructure's sync at 30 + sync |
| RootOrchestrator.FullPipelineRule | tree/M000/src/main.py:393-445 | calls config, analysis and payment report in that order; success is the AND of the three; each step's flag is recorded in order; 100 + the three steps; a non-dictionary `data` faults after the config step |
| RootOrchestrator.UnknownWorkflowRule | tree/M000/src/main.py:192-198 | an unknown workflow type fails with "Unknown workflow type: X" at 30, with no call and the history unchanged |
| RootOrchestrator.RouteRequestRule | tree/M000/src/main.py:200-224 | "M1…" goes left and otherwise "M2…" goes right, with the child answer copied at 30 + child; any other string fails with "Unknown target: t" at 30 and no call; a non-string target or a non-dictionary request faults at 30 |
| RootOrchestrator.RouteDefaultsToInfrastructure | tree/M000/src/main.py:203 | without a target, the request goes to M100 |
| RootOrchestrator.RebalanceRule | tree/M000/src/main.py:226-247 | no child call and exactly 30 tokens; fails exactly when the partial target is truthy but not a string (its split raises); on success the allocation dictionary has exactly the keys of the balancer view |
| RootOrchestrator.RebalanceTargetInTree | tree/M000/src/main.py:234-236 | a partial rebalance addresses a node inside the tree |
| RootOrchestrator.StatusRule | tree/M000/src/main.py:249-276 | always succeeds; asks both managers for status; reports the leaf count and workflow count given; 30 + both managers' tokens |
| RootOrchestrator.StatusCountsEightLeaves | tree/M000/src/main.py:249-276 | on the built tree, status reports 8 leaves |
| RootOrchestrator.CapabilitiesRule | tree/M000/src/main.py:278-298 | lists the system and infrastructure actions, plus the application's capabilities ({} on failure), at 30 + app |
| RootOrchestrator.InitializeRule | tree/M000/src/main.py:144-178 | success equals the infrastructure's; on failure there is no app call and the error is "Infrastructure initialization failed: e" at 30 + infra; otherwise the app is asked for status, and the allocation dictionary has exactly the view's keys, at 30 + infra + app |
| RootOrchestrator.CostCoversBase | tree/M000/src/main.py:128-314 | with children reporting non-negative costs, every answer costs ≥ 30 |
| RootOrchestrator.WorkflowCostCoversBase | tree/M000/src/main.py:180-198 | every workflow answer costs ≥ 30 |
| RootOrchestrator.NewBalancer | tree/M000/src/main.py:67-80 | a fresh balancer whose records are the split of the whole budget over the leaves, which hold exactly the budget and whose own allocations match their records |
| RootOrchestrator.RootOrchestrator.constructor | tree/M000/src/main.py:49-80 | the built tree, configured as `_init_children` gives it; empty history; a fresh balancer has split the whole budget over the leaves, whose own allocations match their records |
| RootOrchestrator.RootOrchestrator.DistributeTokens | tree/M000/src/main.py:82-91 | the balancer's `balance_tokens` over the whole tree |
| RootOrchestrator.RootOrchestrator.GetNodeByPath | tree/M000/src/main.py:108-126 | the walk loop returns exactly `Resolve` of the split path, which lies inside the tree |
| RootOrchestrator.RootOrchestrator.RunTenantReport | tree/M000/src/main.py:316-376 | the answer and the new history are exactly `TenantReport` of the old history |
| RootOrchestrator.RootOrchestrator.InitializeSystem | tree/M000/src/main.py:144-178 | records are redistributed exactly when the infrastructure comes up, then holding the whole budget; every leaf still holds the allocation recorded for it; the answer is `InitializeOutcome` |
| RootOrchestrator.RootOrchestrator.Rebalance | tree/M000/src/main.py:226-247 | records change as the rebalance scope says; a full rebalance leaves the whole budget distributed; every leaf still holds the allocation recorded for it; the answer is `RebalanceOutcome` |
| RootOrchestrator.RootOrchestrator.RebalanceSubtree | tree/M000/src/main.py:233-236 | a partial rebalance of a subtree re-splits its records, and every leaf of the whole tree, inside the subtree or not, still holds the allocation recorded for it |
| RootOrchestrator.RootOrchestrator.Process | tree/M000/src/main.py:128-314 | the answer and new history are `Respond` of the old history; the records are `AllocationsAfter`; weights are unchanged; ids stay sequential; `Valid` is kept, so every leaf's `allocation` matches `get_allocation` for its id |

## Left out

- `simulate_load`: it is a demo helper outside the balancer's allocation logic, and it uses randomness.
- Weights.WeightArg: a factor value is always a number. Python's `setattr` in `update_weight` accepts any value, and a non-numeric one only fails later, when `total_weight` is computed during a distribution; the model has no such value.
- Floating-point rounding. Weights and utilisation are exact reals, and the report's `f"{x:.1%}"` percentage text is kept as the ratio.
- Timestamps, the root's start time and uptime. They come from the clock.
- The weight cache and `_invalidate_cache`. The cache is never valid when it is read, so every weight is recomputed.
- The lazy insertion of default weights by `_get_node_weight`. A lookup with a default has the same observable effect on every split.
- Exception messages. Any exception inside a node's own logic is modelled with the fixed text "internal fault"; Python's wording is not kept.
- Exact formatting of containers. `Values.Show` renders lists and dictionaries in f-strings as a placeholder.
- Python's `True == 1` identification inside sets. The sync id sets treat `Bool(true)` and `Int(1)` as different ids.
- The iteration order of the ids that `sync` reports. Python's set order is unspecified, so the model reports sets.
- The order in which Python iterates a dictionary's keys or a set's elements. `Value` does not record it, so `Values.IterationOrder` supplies it as an input to the operations that iterate, in the same way the children are inputs; `Values.IteratesOnce` says when it names each key or element once.
- Aliasing of request dictionaries. Every request is a value, so a child cannot mutate its parent's dictionary.
- The leaves (M111 … M222) and their `get_status` reports. The leaves are opaque functions from request to result. The status reports that M100 and M200 read are parameters.
- `NodeConfig.metadata`, the leaves' interface type and mock-mode flags, and `connect`/`disconnect`. None of them affects routing or tokens.
- The default budget of 100000. `RootOrchestrator.RootOrchestrator.constructor` takes the budget as a parameter.
- RootOrchestrator.RouteRequest: when the `request` payload is not a dictionary, Python still calls the child. The child's `.get` (tree/M100/src/main.py:66, tree/M200/src/main.py:68) raises outside its `try`, so the exception reaches the root's handler (tree/M000/src/main.py:308-314), which reports the failure at 30 tokens, as the model does. The model leaves that child call out of the trace.
- RootOrchestrator.RebalanceOutcome: the answer's data omits the utilisation report. The success flag, the calls and the tokens are all modelled.
- RootOrchestrator.StatusOutcome: the answer's data omits the per-leaf statuses, the token utilisation report and the uptime. The success flag, the calls and the tokens are all modelled.
- RootOrchestrator.TenantReport: the history record's timestamp is not modelled.
- The composition of handlers into managers. M100 and M200 see their handlers as child functions, so each handler's `Process` is stated on its own. No lemma plugs `ConfigHandler.Process` or `DatabaseHandler.Process` into `InfrastructureManager.Handle`.
- Weights.AllocationRecord.Utilization: the report's rounding to one decimal place is not modelled.
