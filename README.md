# Cascades optimizer coordinator, in Dafny

This project models the coordinator of optd's Cascades search engine,
`CascadesOptimizer` (optd-core/src/cascades/optimizer.rs). The coordinator owns
four pieces of mutable state:

- the memo;
- a stack of pending tasks;
- the set of groups already explored;
- the table of rules already fired, per expression.

`optimize` memoizes the root tree and pushes one `OptimizeGroup` task for the
root's group. It then drains the stack last-in first-out: it pops the newest
task, runs it, and pushes that task's follow-ups. When the stack is empty it
asks the memo for the best binding of the root group.

Files:

- `ids.dfy` (module `Ids`): `GroupId`, `ExprId`, `RuleId` and their `Display`
  forms (`!n` and `n`). A parser is the inverse of each display. It is proved
  a round trip in both directions.
- `bookkeeping.dfy` (module `Bookkeeping`): the fired-rule table and the
  explored set as values, with the mark operations and their frame and growth
  properties.
- `scheduler.dfy` (module `Scheduler`): tasks, one iteration of the drain loop
  (`Advance`), and the drain itself (`Drain`) as a specification function. It
  holds the lemmas that the discipline is LIFO, that bookkeeping only grows,
  and that fuel only cuts the loop off.
- `optimizer.dfy` (module `Optimizer`): the class `CascadesOptimizer` with the
  source's fields, its constructor, its queries and marks, and `Optimize`.
  `Optimize` is proved to leave exactly the state `Drain` describes.

Collaborators whose code is not part of this model are opaque types or
function-typed values:

- The memo is the opaque type `Memo`. Its operations `Memo::new`,
  `add_new_group_expr`, `get_expr_info` and `get_best_group_binding` are the
  fields of `MemoOps`. The binding query answers a plan or an error message
  (`Binding`); `Optimize` wraps that message as `Failure`.
- `Task::execute` is an `Executor` passed to `Optimize`. A task sees everything
  but the task stack, which is private to the optimizer. It always reports the
  memo it left and the `mark_group_explored` and `mark_rule_fired` calls it
  made, and then either an error message or its follow-up tasks. Those changes
  stand even when the task fails, since the task made them on the optimizer
  itself before returning its error. `Optimize` replays the calls through
  `MarkGroupExplored` and `MarkRuleFired`.
- A task is either `OptimizeGroup(group)`, the only kind the optimizer itself
  creates, or `Other(payload)` with an opaque `TaskPayload`.
- Rules, the cost model and the property builders are opaque types held in
  `const` fields, fixed for the optimizer's lifetime.

Two behaviours of the code are worth stating. First, the explored set and the
fired-rule table are never cleared, so they carry over from one `optimize`
call to the next. Second, when a task fails, `optimize` returns at once: the
failing task's changes are kept and the tasks below it stay on the stack. A
later `optimize` pushes its new task above those leftovers and drains them
too; `DrainIsLifo` describes that order.

## Model

| member | source | states |
|---|---|---|
| `Ids.Decimal` | optd-core/src/cascades/optimizer.rs:52-56 | a number prints as a canonical decimal numeral: non-empty, digits only, no leading zero, one digit exactly when below ten |
| `Ids.NumeralValueOfDecimal` | optd-core/src/cascades/optimizer.rs:52-56 | reading back the printed numeral gives the number |
| `Ids.DecimalOfNumeralValue` | optd-core/src/cascades/optimizer.rs:52-56 | every canonical numeral is the print of the number it denotes, so printing is a bijection onto canonical numerals |
| `Ids.GroupIdDisplay` | optd-core/src/cascades/optimizer.rs:46-50 | a group id prints as `!` followed by a canonical numeral |
| `Ids.ExprIdDisplay` | optd-core/src/cascades/optimizer.rs:52-56 | an expression id prints as a bare canonical numeral |
| `Ids.GroupIdDisplayRoundTrip` | optd-core/src/cascades/optimizer.rs:46-50 | parsing the display of a group id gives back that id |
| `Ids.ParseGroupIdCanonical` | optd-core/src/cascades/optimizer.rs:46-50 | any string parsed as a group id is exactly that id's display |
| `Ids.ExprIdDisplayRoundTrip` | optd-core/src/cascades/optimizer.rs:52-56 | parsing the display of an expression id gives back that id |
| `Ids.ParseExprIdCanonical` | optd-core/src/cascades/optimizer.rs:52-56 | any string parsed as an expression id is exactly that id's display |
| `Ids.DisplayDistinguishesIds` | optd-core/src/cascades/optimizer.rs:40-56 | two group ids print the same iff they are equal, likewise for expression ids, and a group id never prints like an expression id |
| `Bookkeeping.RuleFired` | optd-core/src/cascades/optimizer.rs:203-208 | `is_rule_fired` is false for an expression with no entry in the table (the `unwrap_or(false)` default) |
| `Bookkeeping.WithRuleFired` | optd-core/src/cascades/optimizer.rs:210-215 | after marking, `(e, r)` has fired and every other pair answers as before; the recorded pairs are the old ones plus `(e, r)`; the table gains at most the key `e`; marking a fired pair changes nothing |
| `Bookkeeping.WithGroupExplored` | optd-core/src/cascades/optimizer.rs:199-201 | after marking, `g` is explored and every other group answers as before; marking an explored group changes nothing |
| `Bookkeeping.WithAllExplored` | optd-core/src/cascades/optimizer.rs:199-201 | after a run of marks, a group is explored iff it was before or was marked |
| `Bookkeeping.WithAllFired` | optd-core/src/cascades/optimizer.rs:210-215 | after a run of marks, a pair has fired iff it had before or was marked |
| `Bookkeeping.WithAllFiredPairs` | optd-core/src/cascades/optimizer.rs:210-215 | a run of marks records exactly the marked pairs on top of the old ones |
| `Scheduler.Advance` | optd-core/src/cascades/optimizer.rs:128-131 | one iteration stops exactly when the popped task fails, with that task's error and the stack below it; whether or not it fails, the task's memo is installed and a group is explored (a pair has fired) afterwards iff it was before or the task marked it, so bookkeeping only grows |
| `Scheduler.AdvanceIsLifo` | optd-core/src/cascades/optimizer.rs:128-131 | one iteration keeps the tasks below the popped one as a prefix and puts the follow-ups on top in order; the last follow-up is popped next |
| `Scheduler.Drain` | optd-core/src/cascades/optimizer.rs:128-131 | the loop ends normally only with an empty stack |
| `Scheduler.DrainKeepsBookkeeping` | optd-core/src/cascades/optimizer.rs:128-131 | however the drain ends, no explored group and no fired pair is lost |
| `Scheduler.DrainIsLifo` | optd-core/src/cascades/optimizer.rs:128-131 | tasks under a stack are neither run nor changed until everything above them, follow-ups included, is drained; the drain then resumes with them in the state the upper part left |
| `Scheduler.AbortKeepsRemainingTasks` | optd-core/src/cascades/optimizer.rs:128-131 | a failing task ends the drain at once with its error; the tasks below it stay on the stack unrun, and the memo and marks the failing task made are kept |
| `Scheduler.DrainMoreFuel` | optd-core/src/cascades/optimizer.rs:128-131 | more fuel never changes a drain that finished or failed: same end state, same error |
| `Optimizer.CascadesOptimizer.constructor` | optd-core/src/cascades/optimizer.rs:59-77 | a new optimizer has an empty stack, no explored group, an empty fired-rule table, a fresh memo built for its property builders, and keeps its rules, cost model and builders |
| `Optimizer.CascadesOptimizer.IsGroupExplored` | optd-core/src/cascades/optimizer.rs:195-197 | a group counts as explored exactly when marking it again would leave the explored set unchanged |
| `Optimizer.CascadesOptimizer.IsRuleFired` | optd-core/src/cascades/optimizer.rs:203-208 | an expression with no entry in `firedRules` has fired no rule |
| `Optimizer.CascadesOptimizer.MarkGroupExplored` | optd-core/src/cascades/optimizer.rs:195-201 | afterwards `IsGroupExplored(g)` holds, every other group answers as before, re-marking is a no-op, and memo, stack and fired rules are unchanged |
| `Optimizer.CascadesOptimizer.MarkRuleFired` | optd-core/src/cascades/optimizer.rs:203-215 | afterwards `IsRuleFired(e, r)` holds, every other pair answers as before, re-marking is a no-op, and memo, stack and explored set are unchanged |
| `Optimizer.CascadesOptimizer.AddGroupExpr` | optd-core/src/cascades/optimizer.rs:148-154 | the memo's insertion result becomes the new memo and the returned pair; stack and bookkeeping are unchanged |
| `Optimizer.CascadesOptimizer.MarkAllExplored` | optd-core/src/cascades/optimizer.rs:199-201 | replaying a task's explored marks through `MarkGroupExplored` yields `WithAllExplored` of the old set, all else unchanged |
| `Optimizer.CascadesOptimizer.MarkAllFired` | optd-core/src/cascades/optimizer.rs:210-215 | replaying a task's fired marks through `MarkRuleFired` yields `WithAllFired` of the old table, all else unchanged |
| `Optimizer.CascadesOptimizer.RunTopTask` | optd-core/src/cascades/optimizer.rs:128-130 | one loop turn leaves exactly the state `Advance` describes, the failing task's changes included, and reports an error exactly when the task failed |
| `Optimizer.CascadesOptimizer.Optimize` | optd-core/src/cascades/optimizer.rs:123-133 | exactly one `OptimizeGroup` task, for the group `add_group_expr` returned, is pushed on the old stack; the final state is the drain's; the result is the memo's best binding for that same group (its error wrapped as `Failure`), a failing task's error, or fuel exhaustion, the last exactly when the fuel ran out; success leaves the stack empty; bookkeeping only grows |

## Left out

- `Optimize`: the drain loop takes a `fuel` bound, because its termination depends on task semantics that are not part of this model. Running out yields `FuelExhausted`, which the source has no counterpart for; `DrainMoreFuel` shows that fuel never changes a drain that ends otherwise.
- `Optimize`: a task's `mark_*` calls are applied after the task returns, in the order it made them. Reads the task makes in between are folded into the executor, which sees the state as it was when the task started.
- Task kinds other than `OptimizeGroup`, rules, cost models and property builders: their code is not part of this model. They appear only as the opaque `TaskPayload`, `Executor`, `Rule`, `CostModel` and `PropertyBuilder`. The guarantees that a (expression, rule) pair fires at most once and a group is explored at most once depend on task code and are not stated.
- `ResolveGroupId`: a read-only forward to the memo's lookup, with no contract of its own. What it answers after an insertion depends on the memo's lookup, which is not modelled.
- The memo and its internals (deduplication, winners, bindings) are not part of this model. The memo is the opaque `Memo`, reached through `MemoOps`.
- `dump` (lines 87-121): console diagnostics only.
- `get_property` (lines 164-169): a dynamic downcast with `unwrap`, which is runtime typing.
- `OptimizerContext::upper_bound` (lines 24-27, 37): a floating-point ceiling that the coordinator never reads.
- `cost`, `rules` (lines 79-85) and the memo pass-throughs `get_all_exprs_in_group`, `get_expr_info`, `get_group_info`, `update_group_info`, `get_group_id`, `get_expr_memoed`, `get_all_expr_bindings`, `get_all_expr_physical_bindings` (lines 140-193): one-line accessors or forwards to the memo. The first two are the `const` fields; the rest act only on the opaque memo.
- `GroupId`, `ExprId`: `usize` is modelled as `nat`, since ids never wrap in practice and no operation here does arithmetic on them.
- optd-datafusion-repr/src/cost/adaptive_cost.rs and optd-datafusion-repr/src/testing/dummy_cost.rs: floating-point cost models, one shared behind a mutex with a concurrently running executor. They are not part of this model.
- optd-core/src/lib.rs: module declarations only.
