/** The task scheduler behind `CascadesOptimizer::optimize`: a single stack of
    pending tasks, drained by repeatedly popping the most recently pushed task,
    running it, and pushing its follow-up tasks in order.

    What a task does is not part of this model: a task is run by an `Executor`,
    an arbitrary function of the optimizer state the task can see. It yields
    the new memo and the bookkeeping marks the task made, and then either an
    error or the task's follow-up tasks. A failing task keeps what it changed
    before it failed. */
module Scheduler {
  import opened Ids
  import opened Bookkeeping

  /** The memo of groups and expressions; its internals are not part of this model. */
  type Memo(==)

  /** Whatever identifies a task other than `OptimizeGroupTask`; its content
      is not part of this model. */
  type TaskPayload(==)

  /** A task on the stack. The optimizer itself creates only `OptimizeGroup`;
      every other task is created by a running task, and what a task does is
      up to the executor. */
  datatype Task =
    | OptimizeGroup(group: GroupId)
    | Other(payload: TaskPayload)

  /** What a running task can read of the optimizer: everything but the task
      stack, which is private to the optimizer. */
  datatype Snapshot = Snapshot(memo: Memo, explored: set<GroupId>, fired: FiredRules)

  /** The effect of running one task. A task changes the bookkeeping only through
      `mark_group_explored` and `mark_rule_fired`; both variants list those
      calls in order, together with the memo the task left. A task that fails
      (`Failed`) keeps those changes, as the `?` after `execute` does. */
  datatype Step =
    | Failed(memo: Memo, markedExplored: seq<GroupId>, markedFired: seq<(ExprId, RuleId)>, error: string)
    | Ran(memo: Memo, markedExplored: seq<GroupId>, markedFired: seq<(ExprId, RuleId)>, followUps: seq<Task>)

  /** `Task::execute`, supplied from outside the model. */
  type Executor = (Snapshot, Task) -> Step

  /** The optimizer's mutable state: memo, task stack (top at the end),
      explored groups and fired rules. */
  datatype State = State(memo: Memo, tasks: seq<Task>, explored: set<GroupId>, fired: FiredRules) {
    function View(): Snapshot {
      Snapshot(memo, explored, fired)
    }
  }

  /** The task `pop_back` returns. */
  function Top(tasks: seq<Task>): Task
    requires tasks != []
  {
    tasks[|tasks| - 1]
  }

  /** The stack left after `pop_back`. */
  function Below(tasks: seq<Task>): (rest: seq<Task>)
    requires tasks != []
    ensures rest + [Top(tasks)] == tasks
  {
    tasks[..|tasks| - 1]
  }

  datatype Advanced = Next(state: State) | Stopped(error: string, state: State)

  /** One iteration of the drain loop: pop the top task, run it, record its
      marks and install its memo, then either stop with its error (the rest of
      the stack stays in place) or push its follow-ups on top of the rest of
      the stack. */
  function Advance(execute: Executor, s: State): (r: Advanced)
    requires s.tasks != []
    ensures var step := execute(s.View(), Top(s.tasks));
            && (r.Stopped? <==> step.Failed?)
            && (r.Stopped? ==> r.error == step.error && r.state.tasks == Below(s.tasks))
            && r.state.memo == step.memo
            && (forall g :: g in r.state.explored <==> g in s.explored || g in step.markedExplored)
            && (forall e: ExprId, rule: RuleId ::
                  RuleFired(r.state.fired, e, rule) <==> RuleFired(s.fired, e, rule) || (e, rule) in step.markedFired)
    ensures s.explored <= r.state.explored && TableGrows(s.fired, r.state.fired)
  {
    var below := Below(s.tasks);
    var step := execute(s.View(), Top(s.tasks));
    var committed := State(step.memo, below,
                           WithAllExplored(s.explored, step.markedExplored),
                           WithAllFired(s.fired, step.markedFired));
    match step
    case Failed(_, _, _, error) => Stopped(error, committed)
    case Ran(_, _, _, followUps) => Next(committed.(tasks := below + followUps))
  }

  /** Last in, first out: one iteration leaves the tasks below the popped one
      in place, pushes the follow-ups above them in order, and the last
      follow-up is the task the next iteration pops. */
  lemma AdvanceIsLifo(execute: Executor, s: State)
    requires s.tasks != [] && Advance(execute, s).Next?
    ensures var followUps := execute(s.View(), Top(s.tasks)).followUps;
            var tasks' := Advance(execute, s).state.tasks;
            && Below(s.tasks) <= tasks'
            && |tasks'| == |s.tasks| - 1 + |followUps|
            && tasks'[|s.tasks| - 1..] == followUps
            && (followUps != [] ==> Top(tasks') == Top(followUps))
  {
  }

  /** How a drain ends: with an empty stack (and the fuel left), with the error
      of a failing task, or with fuel used up. */
  datatype Outcome =
    | Drained(state: State, fuelLeft: nat)
    | Aborted(error: string, state: State)
    | OutOfFuel(state: State)

  /** `while let Some(task) = self.tasks.pop_back() { ... }`, cut off after
      `fuel` iterations. */
  function Drain(execute: Executor, s: State, fuel: nat): (o: Outcome)
    ensures o.Drained? ==> o.state.tasks == [] && o.fuelLeft <= fuel
    decreases fuel
  {
    if s.tasks == [] then Drained(s, fuel)
    else if fuel == 0 then OutOfFuel(s)
    else
      match Advance(execute, s)
      case Stopped(error, s') => Aborted(error, s')
      case Next(s') => Drain(execute, s', fuel - 1)
  }

  /** Neither bookkeeping structure loses an entry while the stack is drained,
      whichever way the drain ends. */
  lemma {:induction false} DrainKeepsBookkeeping(execute: Executor, s: State, fuel: nat)
    ensures var o := Drain(execute, s, fuel);
            s.explored <= o.state.explored && TableGrows(s.fired, o.state.fired)
    decreases fuel
  {
    if s.tasks != [] && fuel > 0 {
      var a := Advance(execute, s);
      if a.Next? {
        var o := Drain(execute, a.state, fuel - 1);
        assert Drain(execute, s, fuel) == o;
        DrainKeepsBookkeeping(execute, a.state, fuel - 1);
        TableGrowsTransitive(s.fired, a.state.fired, o.state.fired);
      }
    }
  }

  /** What draining `below` underneath a stack does once that stack is finished. */
  function Resume(execute: Executor, below: seq<Task>, o: Outcome): Outcome {
    match o
    case Drained(s, fuelLeft) => Drain(execute, s.(tasks := below), fuelLeft)
    case Aborted(error, s) => Aborted(error, s.(tasks := below + s.tasks))
    case OutOfFuel(s) => OutOfFuel(s.(tasks := below + s.tasks))
  }

  /** One iteration only looks at the top of the stack: running it over a
      taller stack gives the same result with the extra tasks left underneath. */
  lemma AdvanceUnder(execute: Executor, below: seq<Task>, s: State)
    requires s.tasks != []
    ensures var a := Advance(execute, s);
            Advance(execute, s.(tasks := below + s.tasks)) == a.(state := a.state.(tasks := below + a.state.tasks))
  {
  }

  /** The stack discipline is last-in first-out: tasks underneath a stack are
      neither run nor changed until everything above them (including all the
      follow-ups it spawns) has been drained, and draining then carries on
      with them, in the state and with the fuel the upper part left. */
  lemma {:induction false} DrainIsLifo(execute: Executor, below: seq<Task>, s: State, fuel: nat)
    ensures Drain(execute, s.(tasks := below + s.tasks), fuel) == Resume(execute, below, Drain(execute, s, fuel))
    decreases fuel
  {
    var big := s.(tasks := below + s.tasks);
    if s.tasks == [] {
      assert big == s.(tasks := below);
    } else if fuel > 0 {
      var a := Advance(execute, s);
      AdvanceUnder(execute, below, s);
      var a' := Advance(execute, big);
      if a.Next? {
        DrainIsLifo(execute, below, a.state, fuel - 1);
        calc {
          Drain(execute, big, fuel);
          Drain(execute, a'.state, fuel - 1);
          Resume(execute, below, Drain(execute, a.state, fuel - 1));
          Resume(execute, below, Drain(execute, s, fuel));
        }
      }
    }
  }

  /** Fuel only cuts the loop off: with more fuel, a drain that finished or
      failed finishes or fails in the same state, with the extra fuel unused. */
  lemma {:induction false} DrainMoreFuel(execute: Executor, s: State, fuel: nat, extra: nat)
    requires !Drain(execute, s, fuel).OutOfFuel?
    ensures var o := Drain(execute, s, fuel);
            && (o.Drained? ==> Drain(execute, s, fuel + extra) == Drained(o.state, o.fuelLeft + extra))
            && (o.Aborted? ==> Drain(execute, s, fuel + extra) == o)
    decreases fuel
  {
    if s.tasks != [] && fuel > 0 {
      var a := Advance(execute, s);
      if a.Next? {
        assert Drain(execute, s, fuel) == Drain(execute, a.state, fuel - 1);
        assert Drain(execute, s, fuel + extra) == Drain(execute, a.state, fuel - 1 + extra);
        DrainMoreFuel(execute, a.state, fuel - 1, extra);
      }
    }
  }

  /** A drain that stops on an error leaves the failing task popped and every
      task below it unrun, in place at the top of the remaining stack; the
      memo and the marks the failing task made before its error are kept. */
  lemma AbortKeepsRemainingTasks(execute: Executor, below: seq<Task>, s: State, fuel: nat)
    requires s.tasks != [] && fuel > 0
    requires execute(s.View(), Top(s.tasks)).Failed?
    ensures var step := execute(s.View(), Top(s.tasks));
            Drain(execute, s.(tasks := below + s.tasks), fuel)
            == Aborted(step.error, State(step.memo, below + Below(s.tasks),
                                         WithAllExplored(s.explored, step.markedExplored),
                                         WithAllFired(s.fired, step.markedFired)))
  {
  }
}
