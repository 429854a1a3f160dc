/** The recursive, injectability-aware cost walk: MethodInfo.computeMetric,
    MethodInvokation.computeMetric and ReturnOperation.computeMetric, all
    working on one shared InjectabilityContext.

    The walk is specified by three mutually recursive functions over an
    abstract context state (RunMethod, RunOps, RunOp); the methods that
    update the context object in place are proved to end in exactly the
    state those functions compute. The walk terminates because every
    recursive descent marks a method of the finite method table visited. */
module CostEngine {
  import opened JavaLang
  import opened Types
  import MethodInfos
  import Invokations

  /** What context.getMethod(clazzName, name + signature) is asked for. */
  datatype MethodKey = MethodKey(owner: string, nameDesc: string)

  /** The methods the class repository can resolve; a key outside the table
      is a class or method that cannot be found. */
  type MethodTable = map<MethodKey, MethodInfo>

  /** The part of the context the walk changes. */
  datatype CostState = CostState(visited: set<MethodInfo>, cost: int, returnValue: Option<Variable>)

  /** How a walk ended: normally, or with the lookup failure that Java
      raises as an exception and that aborts every enclosing walk. */
  datatype Outcome = Completed | NotFound(key: MethodKey)

  /** The final context state together with how the walk ended. The state
      of a failed walk is the one reached when the exception was thrown. */
  datatype Run = Run(state: CostState, outcome: Outcome)

  const Fresh: CostState := CostState({}, 0, None)

  function KeyOf(inv: MethodInvokation): (k: MethodKey)
    ensures k.owner == inv.clazzName && k.nameDesc == Invokations.TargetNameDesc(inv)
  {
    MethodKey(inv.clazzName, Invokations.TargetNameDesc(inv))
  }

  /** Methods of the table that may still be entered. */
  function Remaining(table: MethodTable, s: CostState): (n: nat)
    ensures n <= |table.Values|
  {
    SubsetCardinality(table.Values - s.visited, table.Values);
    |table.Values - s.visited|
  }

  function Visit(s: CostState, m: MethodInfo): (r: CostState)
    ensures r.visited == s.visited + {m} && r.cost == s.cost && r.returnValue == s.returnValue
  {
    s.(visited := s.visited + {m})
  }

  lemma {:induction false} SubsetCardinality<T>(a: set<T>, b: set<T>)
    requires a <= b
    ensures |a| <= |b|
    decreases a
  {
    if a != {} {
      var x :| x in a;
      SubsetCardinality(a - {x}, b - {x});
    }
  }

  lemma RemainingShrinks(table: MethodTable, s: CostState, s': CostState)
    requires s.visited <= s'.visited
    ensures Remaining(table, s') <= Remaining(table, s)
  {
    SubsetCardinality(table.Values - s'.visited, table.Values - s.visited);
  }

  lemma VisitLowersRemaining(table: MethodTable, s: CostState, m: MethodInfo)
    requires m in table.Values && m !in s.visited
    ensures Remaining(table, Visit(s, m)) < Remaining(table, s)
  {
    assert table.Values - Visit(s, m).visited == (table.Values - s.visited) - {m};
  }

  /** MethodInfo.computeMetric: mark the method visited, charge its
      cyclomatic complexity less one, then run its operations in order. */
  function RunMethod(table: MethodTable, injectable: set<Variable>, m: MethodInfo, s: CostState): (r: Run)
    ensures s.visited + {m} <= r.state.visited
    ensures r.state.visited <= s.visited + {m} + table.Values
    decreases Remaining(table, Visit(s, m)), 2, 0
  {
    var entered := CostState(s.visited + {m}, s.cost + m.cyclomaticComplexity - 1, s.returnValue);
    RunOps(table, injectable, m.operations, entered)
  }

  /** The for-each loop over a method's operations; an exception from one
      operation skips all the later ones. */
  function RunOps(table: MethodTable, injectable: set<Variable>, ops: seq<Operation>, s: CostState): (r: Run)
    ensures s.visited <= r.state.visited <= s.visited + table.Values
    decreases Remaining(table, s), 1, |ops|
  {
    if ops == [] then Run(s, Completed)
    else
      var first := RunOp(table, injectable, ops[0], s);
      if first.outcome.NotFound? then first
      else
        RemainingShrinks(table, s, first.state);
        RunOps(table, injectable, ops[1..], first.state)
  }

  lemma RunOpsStep(table: MethodTable, injectable: set<Variable>, ops: seq<Operation>, i: nat, s: CostState)
    requires i < |ops|
    ensures var first := RunOp(table, injectable, ops[i], s);
            RunOps(table, injectable, ops[i..], s)
            == if first.outcome.NotFound? then first else RunOps(table, injectable, ops[i + 1..], first.state)
  {
    assert ops[i..][0] == ops[i] && ops[i..][1..] == ops[i + 1..];
  }

  /** Operation.computeMetric for each kind of operation. */
  function RunOp(table: MethodTable, injectable: set<Variable>, op: Operation, s: CostState): (r: Run)
    ensures s.visited <= r.state.visited <= s.visited + table.Values
    decreases Remaining(table, s), 0, 0
  {
    match op
    case AssignmentOp(_) => Run(s, Completed)
    case ReturnOp(ret) => Run(s.(returnValue := Some(ret.value)), Completed)
    case InvokationOp(inv) =>
      var key := KeyOf(inv);
      if key !in table then Run(s, NotFound(key))
      else
        var target := table[key];
        if MethodInfos.CanOverride(target) && inv.methodThis in injectable then Run(s, Completed)
        else if target in s.visited then Run(s, Completed)
        else
          VisitLowersRemaining(table, s, target);
          RunMethod(table, injectable, target, s)
  }

  /** The context of one root cost computation. InjectabilityContext.java
      is not part of this model: this class keeps what the walk reads and
      writes. `methods` is the method-lookup oracle, `injectable` the
      variables a test could substitute. */
  class InjectabilityContext {
    const methods: MethodTable
    const injectable: set<Variable>
    var visited: set<MethodInfo>
    var cost: int
    var returnValue: Option<Variable>

    constructor (methods: MethodTable, injectable: set<Variable>)
      ensures this.methods == methods && this.injectable == injectable
      ensures State() == Fresh
    {
      this.methods := methods;
      this.injectable := injectable;
      visited := {};
      cost := 0;
      returnValue := None;
    }

    function State(): CostState
      reads this
    {
      CostState(visited, cost, returnValue)
    }

    /** getMethod: the table entry, or the exception for a missing one. */
    method GetMethod(owner: string, nameDesc: string) returns (r: Result<MethodInfo, MethodKey>)
      ensures MethodKey(owner, nameDesc) in methods ==> r == Success(methods[MethodKey(owner, nameDesc)])
      ensures MethodKey(owner, nameDesc) !in methods ==> r == Failure(MethodKey(owner, nameDesc))
    {
      var key := MethodKey(owner, nameDesc);
      if key in methods {
        r := Success(methods[key]);
      } else {
        r := Failure(key);
      }
    }

    /** isInjectable: whether the receiver is one a test could hand in. */
    predicate IsInjectable(v: Variable): (b: bool)
      ensures b <==> v in injectable
    {
      v in injectable
    }

    /** methodAlreadyVisited: whether the walk has charged `m` already. */
    predicate MethodAlreadyVisited(m: MethodInfo): (b: bool)
      reads this
      ensures b <==> m in State().visited
    {
      m in visited
    }

    method VisitMethod(m: MethodInfo)
      modifies this`visited
      ensures visited == old(visited) + {m}
    {
      visited := visited + {m};
    }

    method AddMethodCost(c: int)
      modifies this`cost
      ensures cost == old(cost) + c
    {
      cost := cost + c;
    }

    method SetReturnValue(v: Variable)
      modifies this`returnValue
      ensures returnValue == Some(v)
    {
      returnValue := Some(v);
    }
  }

  /** MethodInfo.computeMetric. */
  method ComputeMethodMetric(m: MethodInfo, context: InjectabilityContext) returns (outcome: Outcome)
    modifies context
    ensures Run(context.State(), outcome) == RunMethod(context.methods, context.injectable, m, old(context.State()))
    decreases Remaining(context.methods, Visit(context.State(), m)), 3, 0
  {
    ghost var table, injectable := context.methods, context.injectable;
    ghost var before := context.State();
    context.VisitMethod(m);
    context.AddMethodCost(m.cyclomaticComplexity - 1);
    ghost var entered := context.State();
    assert entered == CostState(before.visited + {m}, before.cost + m.cyclomaticComplexity - 1, before.returnValue);
    var ops := m.operations;
    outcome := Completed;
    var i := 0;
    while i < |ops|
      invariant 0 <= i <= |ops|
      invariant entered.visited <= context.visited
      invariant outcome == Completed
      invariant RunMethod(table, injectable, m, before) == RunOps(table, injectable, ops[i..], context.State())
    {
      ghost var current := context.State();
      RemainingShrinks(table, entered, current);
      RunOpsStep(table, injectable, ops, i, current);
      outcome := ComputeOperationMetric(ops[i], context);
      if outcome.NotFound? {
        return;
      }
      i := i + 1;
    }
    assert ops[i..] == [];
    assert RunOps(table, injectable, ops[i..], context.State()) == Run(context.State(), Completed);
  }

  /** The dispatch Java performs through Operation.computeMetric. */
  method ComputeOperationMetric(op: Operation, context: InjectabilityContext) returns (outcome: Outcome)
    modifies context
    ensures Run(context.State(), outcome) == RunOp(context.methods, context.injectable, op, old(context.State()))
    decreases Remaining(context.methods, context.State()), 2, 0
  {
    match op
    case AssignmentOp(_) =>
      outcome := Completed;
    case ReturnOp(ret) =>
      ComputeReturnMetric(ret, context);
      outcome := Completed;
    case InvokationOp(inv) =>
      outcome := ComputeInvokationMetric(inv, context);
  }

  /** ReturnOperation.computeMetric: records the returned variable. */
  method ComputeReturnMetric(ret: ReturnOperation, context: InjectabilityContext)
    modifies context
    ensures context.returnValue == Some(ret.value)
    ensures context.visited == old(context.visited) && context.cost == old(context.cost)
  {
    context.SetReturnValue(ret.value);
  }

  /** MethodInvokation.computeMetric: a call that a test double could
      intercept costs nothing; any other call enters its target unless the
      target was already visited. */
  method ComputeInvokationMetric(inv: MethodInvokation, context: InjectabilityContext) returns (outcome: Outcome)
    modifies context
    ensures Run(context.State(), outcome)
         == RunOp(context.methods, context.injectable, InvokationOp(inv), old(context.State()))
    decreases Remaining(context.methods, context.State()), 1, 0
  {
    var found := context.GetMethod(inv.clazzName, inv.name + inv.signature);
    if found.Failure? {
      return NotFound(found.error);
    }
    var method_ := found.value;
    if MethodInfos.CanOverride(method_) && context.IsInjectable(inv.methodThis) {
      // the method can be overridden
      outcome := Completed;
    } else if !context.MethodAlreadyVisited(method_) {
      VisitLowersRemaining(context.methods, context.State(), method_);
      outcome := ComputeMethodMetric(method_, context);
    } else {
      outcome := Completed;
    }
  }
}
