/** `CascadesOptimizer`: owns the memo, the task stack and the two bookkeeping
    structures, and drives one search per call to `Optimize`. */
module Optimizer {
  import opened Ids
  import opened Bookkeeping
  import opened Scheduler

  /** A relational expression tree: the input and the output of `Optimize`. */
  type RelNode

  /** Configuration objects held for the optimizer's lifetime; their code is
      not part of this model. */
  type Rule
  type CostModel
  type PropertyBuilder

  /** What `Optimize` fails with: an error raised by a task or by the memo
      (carried through unchanged), or the model's fuel running out. */
  datatype OptimizeError = Failure(message: string) | FuelExhausted

  datatype Result<T> = Ok(value: T) | Err(error: OptimizeError)

  /** What `get_best_group_binding` answers: a plan, or the memo's error. */
  datatype Binding = Bound(plan: RelNode) | Unbound(message: string)

  /** The memo operations the optimizer calls (`Memo::new`,
      `add_new_group_expr`, `get_expr_info`, `get_best_group_binding`). */
  datatype MemoOps = MemoOps(
    create: seq<PropertyBuilder> -> Memo,
    addNewGroupExpr: (Memo, RelNode, Option<GroupId>) -> (Memo, GroupId, ExprId),
    exprInfo: (Memo, RelNode) -> (GroupId, ExprId),
    bestGroupBinding: (Memo, GroupId) -> Binding)

  /** The caller-facing result of `optimize` once the stack is drained. */
  function PlanOf(b: Binding): Result<RelNode> {
    match b
    case Bound(plan) => Ok(plan)
    case Unbound(message) => Err(Failure(message))
  }

  class CascadesOptimizer {
    var memo: Memo
    /** The task stack; its top is the last element. */
    var tasks: seq<Task>
    var exploredGroup: set<GroupId>
    var firedRules: FiredRules
    const rules: seq<Rule>
    const cost: CostModel
    const propertyBuilders: seq<PropertyBuilder>
    const memoOps: MemoOps

    /** The whole mutable state, as the scheduler sees it. */
    function Current(): State
      reads this
    {
      State(memo, tasks, exploredGroup, firedRules)
    }

    /** `CascadesOptimizer::new`: an empty stack, nothing explored, nothing
        fired, and a fresh memo built for the given property builders. */
    constructor (memoOps: MemoOps, rules: seq<Rule>, cost: CostModel, propertyBuilders: seq<PropertyBuilder>)
      ensures tasks == [] && exploredGroup == {} && firedRules == map[]
      ensures memo == memoOps.create(propertyBuilders)
      ensures this.memoOps == memoOps && this.rules == rules && this.cost == cost
      ensures this.propertyBuilders == propertyBuilders
    {
      this.memoOps := memoOps;
      this.rules := rules;
      this.cost := cost;
      this.propertyBuilders := propertyBuilders;
      memo := memoOps.create(propertyBuilders);
      tasks := [];
      exploredGroup := {};
      firedRules := map[];
    }

    /** `is_group_explored`: a group is explored exactly when marking it
        again would change nothing. */
    predicate IsGroupExplored(g: GroupId)
      reads this
      ensures IsGroupExplored(g) <==> WithGroupExplored(exploredGroup, g) == exploredGroup
    {
      g in exploredGroup
    }

    /** `is_rule_fired`: an expression without an entry in the table has fired
        no rule. */
    predicate IsRuleFired(e: ExprId, r: RuleId)
      reads this
      ensures IsRuleFired(e, r) ==> e in firedRules
    {
      RuleFired(firedRules, e, r)
    }

    /** `mark_group_explored`: afterwards `g` is explored and every other group
        answers as before; marking an explored group changes nothing. */
    method MarkGroupExplored(g: GroupId)
      modifies this
      ensures exploredGroup == WithGroupExplored(old(exploredGroup), g)
      ensures IsGroupExplored(g)
      ensures forall h :: h != g ==> IsGroupExplored(h) == old(IsGroupExplored(h))
      ensures old(IsGroupExplored(g)) ==> exploredGroup == old(exploredGroup)
      ensures memo == old(memo) && tasks == old(tasks) && firedRules == old(firedRules)
    {
      exploredGroup := WithGroupExplored(exploredGroup, g);
    }

    /** `mark_rule_fired`: afterwards `(e, r)` has fired and every other pair
        answers as before; marking a fired pair changes nothing. */
    method MarkRuleFired(e: ExprId, r: RuleId)
      modifies this
      ensures firedRules == WithRuleFired(old(firedRules), e, r)
      ensures IsRuleFired(e, r)
      ensures forall e', r' :: e' != e || r' != r ==> IsRuleFired(e', r') == old(IsRuleFired(e', r'))
      ensures old(IsRuleFired(e, r)) ==> firedRules == old(firedRules)
      ensures memo == old(memo) && tasks == old(tasks) && exploredGroup == old(exploredGroup)
    {
      firedRules := WithRuleFired(firedRules, e, r);
    }

    /** `add_group_expr`: the memo inserts the tree (into `groupId` when given)
        and reports the group and expression it landed in; nothing else changes. */
    method AddGroupExpr(expr: RelNode, groupId: Option<GroupId>) returns (g: GroupId, e: ExprId)
      modifies this
      ensures (memo, g, e) == memoOps.addNewGroupExpr(old(memo), expr, groupId)
      ensures tasks == old(tasks) && exploredGroup == old(exploredGroup) && firedRules == old(firedRules)
    {
      var inserted := memoOps.addNewGroupExpr(memo, expr, groupId);
      memo, g, e := inserted.0, inserted.1, inserted.2;
    }

    /** `resolve_group_id`: the group the memo records for the tree's root; a
        read-only query. */
    function ResolveGroupId(rootRel: RelNode): GroupId
      reads this
    {
      memoOps.exprInfo(memo, rootRel).0
    }

    /** Replays a task's `mark_group_explored` calls, in order. */
    method MarkAllExplored(gs: seq<GroupId>)
      modifies this
      ensures exploredGroup == WithAllExplored(old(exploredGroup), gs)
      ensures memo == old(memo) && tasks == old(tasks) && firedRules == old(firedRules)
    {
      ghost var explored0 := exploredGroup;
      var i := 0;
      while i < |gs|
        invariant 0 <= i <= |gs|
        invariant exploredGroup == WithAllExplored(explored0, gs[..i])
        invariant memo == old(memo) && tasks == old(tasks) && firedRules == old(firedRules)
      {
        MarkGroupExplored(gs[i]);
        assert gs[..i + 1][..i] == gs[..i];
        i := i + 1;
      }
      assert gs[..i] == gs;
    }

    /** Replays a task's `mark_rule_fired` calls, in order. */
    method MarkAllFired(ps: seq<(ExprId, RuleId)>)
      modifies this
      ensures firedRules == WithAllFired(old(firedRules), ps)
      ensures memo == old(memo) && tasks == old(tasks) && exploredGroup == old(exploredGroup)
    {
      ghost var fired0 := firedRules;
      var i := 0;
      while i < |ps|
        invariant 0 <= i <= |ps|
        invariant firedRules == WithAllFired(fired0, ps[..i])
        invariant memo == old(memo) && tasks == old(tasks) && exploredGroup == old(exploredGroup)
      {
        MarkRuleFired(ps[i].0, ps[i].1);
        assert ps[..i + 1][..i] == ps[..i];
        i := i + 1;
      }
      assert ps[..i] == ps;
    }

    /** One turn of `optimize`'s loop: `pop_back` the top task, run it (its
        memo and its own `mark_*` calls replayed in order take effect whether
        or not it fails), and either report its error or `extend` the stack
        with its follow-ups. */
    method RunTopTask(execute: Executor) returns (error: Option<string>)
      requires tasks != []
      modifies this
      ensures var a := Advance(execute, old(Current()));
              && Current() == a.state
              && (error.Some? <==> a.Stopped?)
              && (a.Stopped? ==> error.value == a.error)
    {
      var task := tasks[|tasks| - 1];
      tasks := tasks[..|tasks| - 1];
      var step := execute(Snapshot(memo, exploredGroup, firedRules), task);
      memo := step.memo;
      MarkAllExplored(step.markedExplored);
      MarkAllFired(step.markedFired);
      if step.Failed? {
        return Some(step.error);
      }
      tasks := tasks + step.followUps;
      error := None;
    }

    /** `optimize`: memoize the root, push one `OptimizeGroup` task for its
        group on top of whatever the stack holds, drain the stack, and ask the
        memo for the best binding of that same group. A failing task ends the
        call with its error, keeps what that task changed, and leaves the
        tasks below it on the stack. */
    method Optimize(rootRel: RelNode, execute: Executor, fuel: nat) returns (result: Result<RelNode>)
      modifies this
      ensures var (m, g, _) := memoOps.addNewGroupExpr(old(memo), rootRel, None);
              var o := Drain(execute, State(m, old(tasks) + [OptimizeGroup(g)], old(exploredGroup), old(firedRules)), fuel);
              && Current() == o.state
              && (result == Err(FuelExhausted) <==> o.OutOfFuel?)
              && result == match o
                           case Drained(s, _) => PlanOf(memoOps.bestGroupBinding(s.memo, g))
                           case Aborted(error, _) => Err(Failure(error))
                           case OutOfFuel(_) => Err(FuelExhausted)
      ensures result.Ok? ==> tasks == []
      ensures old(exploredGroup) <= exploredGroup && TableGrows(old(firedRules), firedRules)
    {
      var groupId, _ := AddGroupExpr(rootRel, None);
      tasks := tasks + [OptimizeGroup(groupId)];
      ghost var seeded := Current();
      ghost var outcome := Drain(execute, seeded, fuel);
      DrainKeepsBookkeeping(execute, seeded, fuel);
      var left := fuel;
      while tasks != []
        invariant Drain(execute, Current(), left) == outcome
        decreases left
      {
        if left == 0 {
          return Err(FuelExhausted);
        }
        var error := RunTopTask(execute);
        if error.Some? {
          return Err(Failure(error.value));
        }
        left := left - 1;
      }
      result := PlanOf(memoOps.bestGroupBinding(memo, groupId));
    }
  }
}
