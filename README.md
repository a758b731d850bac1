# Fund-flow hierarchy: a Dafny model of `buildHierarchy`

This project models the core of the hierarchy controller of a CBDC ledger service.
`buildHierarchy(userId)` starts from one user account and follows the account's outgoing money
transfers. It groups them by receiver and sums the amounts per receiver. Then it recurses into
each receiver and returns a nested tree of `{name, budget, children}`:

- a node's budget is the sum of what the account sent, or its balance when it sent nothing;
- a child's budget is overwritten with the amount its parent sent to it;
- children come in the order in which their receivers first occur in the parent's transfers.

The model has five modules:

- `Ledger` (`ledger.dfy`): the user store (`map<AccountId, Account>`) and the transfer store
  (`seq<Transfer>`). The Mongoose queries become pure lookups. `Outgoing` is
  `Transaction.find({sender})`.
- `Aggregation` (`aggregation.dfy`): the receiver→total `Map`, which keeps keys in insertion
  order. `GroupByReceiver` is the `forEach` loop. It is proved equal to a reference grouping
  built from `Receivers` (the distinct receivers in first-occurrence order) and `TotalTo` (the
  sum of the amounts of exactly the transfers to one receiver). `SumValues` is the `reduce`.
- `Hierarchy` (`hierarchy.dfy`): `Build` is the recursive tree as a function, and the lemmas
  state its properties. `BuildChildren` is the `Promise.all` over the receivers, taken in key
  order.
- `HierarchyController` (`controller.dfy`): `BuildHierarchy` is the imperative version. It looks
  the user up, runs the grouping loop, picks the budget, then builds the children one receiver
  at a time, overwriting each child's budget. It is proved equal to `Build`, so its output
  depends only on the two stores, child order included.
- `Unguarded` (`unguarded.dfy`): the controller's recursion as written, with no cycle guard.
  Nested calls are counted against a fuel bound.

**Deviation from the source: the cycle guard.** The controller recurses on every receiver
unconditionally (`controllers/hierarchyController.js:55`). On a transfer cycle it can therefore
recurse without end: two accounts that send only to each other, such as A→B→A, never return
(`Unguarded.CycleNeverReturns`). A cycle does not always mean divergence. If a branch the
recursion reaches first fails with NotFound, the build ends with that error even when a cycle
lies elsewhere. `Hierarchy.Build` therefore carries `visited`, the accounts already expanded on
the current root-to-node path. An account reached again while it is on that path becomes a leaf
marked `truncated = true`, with no children; like every child, its budget is overwritten by its
parent. The `truncated` field is not in the source's output. This behaviour is the model's, not
the source's. `Unguarded.GuardIsConservative` shows that it changes nothing where the source
terminates: whenever the unguarded recursion returns, with any amount of fuel, `Build` from an
empty path returns the same tree or the same error, and no node is truncated.

## Model

| member | source | states |
|---|---|---|
| `Ledger.Outgoing` | controllers/hierarchyController.js:17-19 | the query returns exactly the store's transfers whose sender is the account, and no more transfers than the store holds |
| `Ledger.OutgoingCounts` | controllers/hierarchyController.js:17-19 | each matching transfer is kept as many times as the store holds it; every other transfer is dropped |
| `Ledger.OutgoingConcat` | controllers/hierarchyController.js:17-19 | the query keeps store order: filtering a concatenation is the concatenation of the filtered parts |
| `Aggregation.Receivers` | controllers/hierarchyController.js:24-29 | the Map's keys: each receiver appears once, and a receiver is a key iff some outgoing transfer goes to it |
| `Aggregation.ReceiversInFirstOccurrenceOrder` | controllers/hierarchyController.js:24-29 | keys come in first-occurrence order: an earlier key was first sent to at an earlier transfer |
| `Aggregation.FirstIndex` | controllers/hierarchyController.js:24-29 | the position of the first transfer to a receiver: it goes to that receiver and no earlier one does |
| `Aggregation.TotalToAbsent` | controllers/hierarchyController.js:27-29 | a receiver that no transfer goes to has total 0 (the Map's initial value) |
| `Aggregation.Group` | controllers/hierarchyController.js:22-35 | the reference grouping is a well-formed insertion-ordered map: distinct keys, and exactly the keys carry a total |
| `Aggregation.GroupByReceiver` | controllers/hierarchyController.js:22-35 | the loop's keys are the distinct receivers in first-occurrence order; each key's total is the sum of the amounts of exactly the transfers to that receiver |
| `Aggregation.GroupConserves` | controllers/hierarchyController.js:31-42 | conservation: the per-receiver totals, summed in key order, equal the sum of all the outgoing amounts |
| `Hierarchy.Build` | controllers/hierarchyController.js:8-70 | a missing account fails with NotFound for that id; every error names an account missing from the user store; a tree carries the account's name; a node is marked truncated iff its account was already on the path |
| `Hierarchy.BuildChildren` | controllers/hierarchyController.js:53-62 | any failure of the children names an account missing from the user store |
| `Hierarchy.BuildChildrenOk` | controllers/hierarchyController.js:53-62 | successful children: one per key, in key order; child i is the tree built for key i with its budget replaced by that key's total |
| `Hierarchy.BuildChildrenErr` | controllers/hierarchyController.js:53-62 | all-or-nothing: the children fail iff some child fails, and then with the error of the first failing child in key order |
| `Hierarchy.SumBudgetsOfChildren` | controllers/hierarchyController.js:40-42 | children whose budgets are the keys' totals have budgets summing to the reduce over the Map's values |
| `Hierarchy.LeafCase` | controllers/hierarchyController.js:38-50 | an account with no outgoing transfers yields `{name, balance, []}`; an expanded account has no children iff it sent nothing |
| `Hierarchy.ChildrenAreSubtrees` | controllers/hierarchyController.js:53-64 | one child per distinct receiver, in key order; each child is the tree built for that receiver with its name and children unchanged, and its budget exactly the amount the parent sent it |
| `Hierarchy.RootBudget` | controllers/hierarchyController.js:40-43 | an account that sends something has as budget the sum of all its outgoing amounts, which is also the sum of its children's budgets |
| `Hierarchy.ChildFailureFailsAll` | controllers/hierarchyController.js:53-62 | an expanded account's build fails iff one of its receivers' builds fails, and then with the error of the first failing receiver |
| `HierarchyController.Prepend` | controllers/hierarchyController.js:53-64 | the children collected so far followed by the rest: a success iff the rest succeeds, with the collected children as prefix; otherwise the rest's error |
| `HierarchyController.BuildHierarchy` | controllers/hierarchyController.js:8-70 | the imperative build (lookup, grouping loop, budget, child loop with budget override) returns exactly `Build`'s tree or error, so identical stores give identical trees |
| `Unguarded.Unfold` | controllers/hierarchyController.js:8-70 | the recursion as written, bounded by fuel: it needs at least one call to return, and a tree it returns has no truncated node |
| `Unguarded.UnfoldMono` | controllers/hierarchyController.js:53-62 | a recursion that returns with some fuel returns the same result with any larger fuel |
| `Unguarded.GuardIsConservative` | controllers/hierarchyController.js:53-62 | wherever the recursion as written returns, the guarded build returns the same tree or the same error, with no truncated node |
| `Unguarded.CycleNeverReturns` | controllers/hierarchyController.js:55 | as written, on two accounts that only send to each other, the recursion from either one runs out of any fuel |
| `Unguarded.CycleIsCut` | controllers/hierarchyController.js:55-58 | with the guard, the same cycle gives the finite tree a→b→a, with the second a truncated and carrying the amount b sent to a |
| `Unguarded.CyclicStoreNeverReturns` | controllers/hierarchyController.js:55 | as written, the build from A never returns when A sends 15 to B and B sends 15 to A |
| `Unguarded.CyclicStoreIsCut` | controllers/hierarchyController.js:55-58 | with the guard, that store gives `A(15) → B(15) → A(15, truncated)` |

## Left out

- `getTransactionHierarchy` (`controllers/hierarchyController.js:73-88`) and the route file are HTTP plumbing. This covers the ObjectId format check, the status codes and the JSON response.
- Database I/O: `User.findById` and `Transaction.find` are lookups over in-memory values. Store failures (connection or query errors) are not modelled, so the only error is `NotFound`.
- `Ledger.Outgoing`: the store's sequence order stands for whatever order `Transaction.find` returns. MongoDB promises no order without `.sort()`, so child order, and identical trees from identical stores, hold only as far as the query returns the transfers in a repeatable order.
- The `.toString()` of ObjectIds: account ids are plain strings compared by equality. Transfer ids and other transfer fields play no role and are omitted.
- `console.error` and the catch-and-rethrow: they log and pass the same error on.
- Floating point: amounts and balances are unbounded integers, so sums are exact and never rounded.
- Concurrency of `Promise.all`: the children are built one after another, in key order. This is also the order `Promise.all` returns results in.
- `Hierarchy.BuildChildren`: when several children fail, it reports the first in key order. `Promise.all` rejects with whichever branch fails first in time, which the model does not capture.
- `Unguarded.UnfoldChildren`: when a branch never returns and a later branch fails, the model reports running out of fuel. `Promise.all` would reject with the later branch's error.
- Cycle handling is a deliberate deviation (see above). The `truncated` field exists only in the model.

## Findings

| source | as written | input that shows it | evidently intended | confidence | as-written member | corrected member |
|---|---|---|---|---|---|---|
| controllers/hierarchyController.js:55 | recurses into every receiver with no cycle guard, so the build from A never returns when A and B send only to each other | users A (balance 100) and B (balance 5); transfers A→B 15 and B→A 15; build from A | a finite tree in which the branch that returns to an account already on the path is cut off | not executed | `Unguarded.CyclicStoreNeverReturns` | `Unguarded.CyclicStoreIsCut` |
