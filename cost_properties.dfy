/** What the cost walk promises: each method's baseline (cyclomatic
    complexity less one) is charged once, when it is first visited, so the
    cost a walk adds is the baseline sum of the methods it newly visited;
    intercepted and already-visited calls change nothing; a lookup failure
    aborts the walk. The scenarios at the end are the metric tests' classes. */
module CostProperties {
  import opened JavaLang
  import opened Types
  import MethodInfos
  import opened CostEngine

  /** What entering `m` charges: its complexity less one, so a method with
      no branches is free. */
  function BaselineOf(m: MethodInfo): (c: int)
    ensures c == 0 <==> m.cyclomaticComplexity == 1
  {
    m.cyclomaticComplexity - 1
  }

  /** Sum of the baselines of a set of methods. */
  ghost function Baseline(ms: set<MethodInfo>): int
    decreases ms
  {
    if ms == {} then 0
    else
      var m :| m in ms;
      BaselineOf(m) + Baseline(ms - {m})
  }

  lemma {:induction false} BaselineWithout(ms: set<MethodInfo>, x: MethodInfo)
    requires x in ms
    ensures Baseline(ms) == BaselineOf(x) + Baseline(ms - {x})
    decreases ms
  {
    var y :| y in ms && Baseline(ms) == BaselineOf(y) + Baseline(ms - {y});
    if y != x {
      BaselineWithout(ms - {y}, x);
      BaselineWithout(ms - {x}, y);
      assert ms - {y} - {x} == ms - {x} - {y};
    }
  }

  lemma {:induction false} BaselineUnion(a: set<MethodInfo>, b: set<MethodInfo>)
    requires a !! b
    ensures Baseline(a + b) == Baseline(a) + Baseline(b)
    decreases b
  {
    if b != {} {
      var x :| x in b;
      BaselineWithout(a + b, x);
      BaselineWithout(b, x);
      assert (a + b) - {x} == a + (b - {x});
      BaselineUnion(a, b - {x});
    } else {
      assert a + b == a;
    }
  }

  /** Splitting: methods of complexity 1 contribute nothing however many
      there are. */
  lemma {:induction false} StraightLineMethodsCostNothing(ms: set<MethodInfo>)
    requires forall m :: m in ms ==> m.cyclomaticComplexity == 1
    ensures Baseline(ms) == 0
    decreases ms
  {
    if ms != {} {
      var x :| x in ms;
      BaselineWithout(ms, x);
      StraightLineMethodsCostNothing(ms - {x});
    }
  }

  lemma BaselineSplit(v: set<MethodInfo>, v1: set<MethodInfo>, v2: set<MethodInfo>)
    requires v <= v1 <= v2
    ensures Baseline(v2 - v) == Baseline(v1 - v) + Baseline(v2 - v1)
  {
    assert v2 - v == (v1 - v) + (v2 - v1);
    BaselineUnion(v1 - v, v2 - v1);
  }

  /** Entering `m` charges its own baseline and then whatever the walk of
      its operations charges. */
  lemma {:induction false} MethodCharge(table: MethodTable, injectable: set<Variable>, m: MethodInfo, s: CostState)
    ensures var r := RunMethod(table, injectable, m, s);
            r.state.cost == s.cost + BaselineOf(m) + Baseline(r.state.visited - (s.visited + {m}))
    decreases Remaining(table, Visit(s, m)), 2, 0
  {
    var entered := CostState(s.visited + {m}, s.cost + m.cyclomaticComplexity - 1, s.returnValue);
    var r := RunMethod(table, injectable, m, s);
    assert r == RunOps(table, injectable, m.operations, entered);
    OpsCharge(table, injectable, m.operations, entered);
    assert r.state.cost == entered.cost + Baseline(r.state.visited - entered.visited);
  }

  /** A run of operations adds exactly the baselines of the methods it
      visits for the first time; this holds for an aborted run too. */
  lemma {:induction false} OpsCharge(table: MethodTable, injectable: set<Variable>, ops: seq<Operation>, s: CostState)
    ensures var r := RunOps(table, injectable, ops, s);
            r.state.cost == s.cost + Baseline(r.state.visited - s.visited)
    decreases Remaining(table, s), 1, |ops|
  {
    if ops == [] {
      assert s.visited - s.visited == {};
    } else {
      var first := RunOp(table, injectable, ops[0], s);
      OpCharge(table, injectable, ops[0], s);
      if !first.outcome.NotFound? {
        RemainingShrinks(table, s, first.state);
        var r := RunOps(table, injectable, ops[1..], first.state);
        OpsCharge(table, injectable, ops[1..], first.state);
        BaselineSplit(s.visited, first.state.visited, r.state.visited);
      }
    }
  }

  lemma {:induction false} OpCharge(table: MethodTable, injectable: set<Variable>, op: Operation, s: CostState)
    ensures var r := RunOp(table, injectable, op, s);
            r.state.cost == s.cost + Baseline(r.state.visited - s.visited)
    decreases Remaining(table, s), 0, 0
  {
    assert s.visited - s.visited == {};
    match op
    case AssignmentOp(_) =>
    case ReturnOp(_) =>
    case InvokationOp(inv) =>
      var key := KeyOf(inv);
      if key in table {
        var target := table[key];
        if !(MethodInfos.CanOverride(target) && inv.methodThis in injectable) && target !in s.visited {
          VisitLowersRemaining(table, s, target);
          var r := RunMethod(table, injectable, target, s);
          MethodCharge(table, injectable, target, s);
          BaselineWithout(r.state.visited - s.visited, target);
          assert (r.state.visited - s.visited) - {target} == r.state.visited - (s.visited + {target});
        }
      }
  }

  /** A root computation on a fresh context charges every method it reaches
      exactly once: the final cost is the baseline sum over the visited set,
      which contains the root. */
  lemma RootCostIsBaselineOfVisited(table: MethodTable, injectable: set<Variable>, m: MethodInfo)
    ensures var r := RunMethod(table, injectable, m, Fresh);
            m in r.state.visited && r.state.cost == Baseline(r.state.visited)
  {
    var r := RunMethod(table, injectable, m, Fresh);
    MethodCharge(table, injectable, m, Fresh);
    BaselineWithout(r.state.visited, m);
    assert r.state.visited - ({} + {m}) == r.state.visited - {m};
  }

  /** A call a test double could intercept changes nothing. */
  lemma InterceptedCallChangesNothing(table: MethodTable, injectable: set<Variable>, inv: MethodInvokation, s: CostState)
    requires KeyOf(inv) in table
    requires MethodInfos.CanOverride(table[KeyOf(inv)]) && inv.methodThis in injectable
    ensures RunOp(table, injectable, InvokationOp(inv), s) == Run(s, Completed)
  {
  }

  /** A call back into a method already visited changes nothing; in
      particular a method calling itself is not entered again. */
  lemma VisitedCallChangesNothing(table: MethodTable, injectable: set<Variable>, inv: MethodInvokation, s: CostState)
    requires KeyOf(inv) in table && table[KeyOf(inv)] in s.visited
    ensures RunOp(table, injectable, InvokationOp(inv), s) == Run(s, Completed)
  {
  }

  /** Any other call enters its target once, from the caller's state. */
  lemma UnvisitedCallEntersTarget(table: MethodTable, injectable: set<Variable>, inv: MethodInvokation, s: CostState)
    requires KeyOf(inv) in table && table[KeyOf(inv)] !in s.visited
    requires !MethodInfos.CanOverride(table[KeyOf(inv)]) || inv.methodThis !in injectable
    ensures RunOp(table, injectable, InvokationOp(inv), s) == RunMethod(table, injectable, table[KeyOf(inv)], s)
  {
  }

  /** A call whose target cannot be found is reported, not charged as zero:
      the walk stops with the missing key and the operations after the call
      do not run. */
  lemma MissingTargetAborts(table: MethodTable, injectable: set<Variable>, inv: MethodInvokation, rest: seq<Operation>, s: CostState)
    requires KeyOf(inv) !in table
    ensures RunOps(table, injectable, [InvokationOp(inv)] + rest, s) == Run(s, NotFound(KeyOf(inv)))
  {
    assert ([InvokationOp(inv)] + rest)[0] == InvokationOp(inv);
  }

  /** ReturnOperation.computeMetric records its value and touches neither
      the cost nor the visited set. */
  lemma ReturnRecordsValueOnly(table: MethodTable, injectable: set<Variable>, ret: ReturnOperation, s: CostState)
    ensures RunOp(table, injectable, ReturnOp(ret), s) == Run(CostState(s.visited, s.cost, Some(ret.value)), Completed)
  {
  }

  // ---- Scenarios of the metric tests -------------------------------------

  /** Evaluation steps the scenarios are computed with. */
  lemma EnterMethod(table: MethodTable, injectable: set<Variable>, m: MethodInfo, s: CostState)
    ensures RunMethod(table, injectable, m, s)
         == RunOps(table, injectable, m.operations, CostState(s.visited + {m}, s.cost + m.cyclomaticComplexity - 1, s.returnValue))
  {
  }

  lemma RunNoOps(table: MethodTable, injectable: set<Variable>, s: CostState)
    ensures RunOps(table, injectable, [], s) == Run(s, Completed)
  {
  }

  lemma RunOneOp(table: MethodTable, injectable: set<Variable>, op: Operation, s: CostState)
    ensures RunOps(table, injectable, [op], s) == RunOp(table, injectable, op, s)
  {
    assert [op][1..] == [];
  }

  lemma RunTwoOps(table: MethodTable, injectable: set<Variable>, op1: Operation, op2: Operation, s: CostState)
    requires RunOp(table, injectable, op1, s).outcome == Completed
    ensures RunOps(table, injectable, [op1, op2], s)
         == RunOp(table, injectable, op2, RunOp(table, injectable, op1, s).state)
  {
    assert [op1, op2][1..] == [op2];
    RunOneOp(table, injectable, op2, RunOp(table, injectable, op1, s).state);
  }

  const Medium := ClassInfo("MetricComputerTest$Medium")
  const This := Variable(0, "this{object}")

  function Call(owner: ClassInfo, name: string, desc: string, receiver: Variable): Operation {
    InvokationOp(MethodInvokation(0, owner.name, name, desc, receiver, []))
  }

  function Method(c: ClassInfo, name: string, desc: string, isStatic: bool, vis: Visibility, cc: int, ops: seq<Operation>): MethodInfo {
    MethodInfo(c, name, desc, isStatic, This, [], [], vis, cc, ops)
  }

  function Entry(m: MethodInfo): (MethodKey, MethodInfo) {
    (MethodKey(m.classInfo.name, m.name + m.desc), m)
  }

  /** A static method of complexity 2 without calls costs 1. */
  lemma StaticCostOne(table: MethodTable, injectable: set<Variable>)
    ensures RunMethod(table, injectable, Method(Medium, "statiCost1", "()I", true, Public, 2, []), Fresh).state.cost == 1
  {
    var m := Method(Medium, "statiCost1", "()I", true, Public, 2, []);
    EnterMethod(table, injectable, m, Fresh);
    RunNoOps(table, injectable, CostState({m}, 1, None));
  }

  function StatiCost1(): MethodInfo {
    Method(Medium, "statiCost1", "()I", true, Public, 2, [])
  }

  function Cost2(): MethodInfo {
    Method(Medium, "cost2", "()I", false, Public, 3, [])
  }

  function MediumInit(): MethodInfo {
    Method(Medium, "<init>", "()V", false, Public, 1,
           [Call(Medium, "statiCost1", "()I", This), Call(Medium, "cost2", "()I", This)])
  }

  function MediumTable(): MethodTable {
    map[Entry(StatiCost1()).0 := StatiCost1(), Entry(Cost2()).0 := Cost2(), Entry(MediumInit()).0 := MediumInit()]
  }

  /** The constructor calls static statiCost1 (complexity 2) and instance
      cost2 (complexity 3) on `this`. With `this` injectable only the static
      call is charged: the constructor costs 1. */
  lemma MediumConstructorCostsOne()
    ensures RunMethod(MediumTable(), {This}, MediumInit(), Fresh)
         == Run(CostState({MediumInit(), StatiCost1()}, 1, None), Completed)
  {
    var table, init := MediumTable(), MediumInit();
    var ops := init.operations;
    var entered := CostState({init}, 0, None);
    EnterMethod(table, {This}, init, Fresh);
    assert KeyOf(ops[0].invokation) == Entry(StatiCost1()).0;
    assert table[KeyOf(ops[0].invokation)] == StatiCost1();
    assert StatiCost1() != init;
    UnvisitedCallEntersTarget(table, {This}, ops[0].invokation, entered);
    EnterMethod(table, {This}, StatiCost1(), entered);
    var afterStatic := CostState({init, StatiCost1()}, 1, None);
    RunNoOps(table, {This}, afterStatic);
    assert RunOp(table, {This}, ops[0], entered) == Run(afterStatic, Completed);
    assert KeyOf(ops[1].invokation) == Entry(Cost2()).0;
    assert table[KeyOf(ops[1].invokation)] == Cost2();
    InterceptedCallChangesNothing(table, {This}, ops[1].invokation, afterStatic);
    RunTwoOps(table, {This}, ops[0], ops[1], entered);
    assert ops == [ops[0], ops[1]];
    assert RunOps(table, {This}, ops, entered) == Run(afterStatic, Completed);
    assert CostState(Fresh.visited + {init}, Fresh.cost + init.cyclomaticComplexity - 1, Fresh.returnValue) == entered;
    assert RunMethod(table, {This}, init, Fresh) == RunOps(table, {This}, ops, entered);
  }

  const Injectable := ClassInfo("MetricComputerTest$InjectableClass")
  const CostUtil := ClassInfo("CostUtil")
  const Ref := Variable(1, "ref{object}")

  function StaticCost4(): MethodInfo {
    Method(CostUtil, "staticCost4", "()V", true, Public, 5, [])
  }

  function Cost4(): MethodInfo {
    Method(Injectable, "cost4", "()V", false, Public, 1, [Call(CostUtil, "staticCost4", "()V", This)])
  }

  function Indirection(): MethodInfo {
    Method(Injectable, "indirection", "(LInjectableClass;)V", true, Private, 1, [Call(Injectable, "cost4", "()V", Ref)])
  }

  function InjectableTable(): MethodTable {
    map[Entry(StaticCost4()).0 := StaticCost4(), Entry(Cost4()).0 := Cost4(), Entry(Indirection()).0 := Indirection()]
  }

  /** Calling public instance cost4 through an injectable reference costs
      nothing; through a reference the caller made itself it costs what
      cost4 costs, 4. */
  lemma InjectableReceiverCostsNothing()
    ensures RunMethod(InjectableTable(), {Ref}, Indirection(), Fresh)
         == Run(CostState({Indirection()}, 0, None), Completed)
  {
    var table := InjectableTable();
    var ops := Indirection().operations;
    var entered := CostState({Indirection()}, 0, None);
    EnterMethod(table, {Ref}, Indirection(), Fresh);
    assert KeyOf(ops[0].invokation) == Entry(Cost4()).0;
    assert MethodInfos.CanOverride(Cost4());
    RunOneOp(table, {Ref}, ops[0], entered);
  }

  lemma FreshReceiverCostsFour()
    ensures RunMethod(InjectableTable(), {}, Indirection(), Fresh)
         == Run(CostState({Indirection(), Cost4(), StaticCost4()}, 4, None), Completed)
  {
    var table := InjectableTable();
    var ops := Indirection().operations;
    var inner := Cost4().operations;
    var s1 := CostState({Indirection()}, 0, None);
    var s2 := CostState({Indirection(), Cost4()}, 0, None);
    var s3 := CostState({Indirection(), Cost4(), StaticCost4()}, 4, None);
    EnterMethod(table, {}, Indirection(), Fresh);
    assert KeyOf(ops[0].invokation) == Entry(Cost4()).0;
    assert table[KeyOf(ops[0].invokation)] == Cost4();
    assert Cost4() != Indirection();
    UnvisitedCallEntersTarget(table, {}, ops[0].invokation, s1);
    RunOneOp(table, {}, ops[0], s1);
    assert ops == [ops[0]];
    EnterMethod(table, {}, Cost4(), s1);
    assert KeyOf(inner[0].invokation) == Entry(StaticCost4()).0;
    assert table[KeyOf(inner[0].invokation)] == StaticCost4();
    assert StaticCost4() != Indirection() && StaticCost4() != Cost4();
    UnvisitedCallEntersTarget(table, {}, inner[0].invokation, s2);
    RunOneOp(table, {}, inner[0], s2);
    assert inner == [inner[0]];
    EnterMethod(table, {}, StaticCost4(), s2);
    RunNoOps(table, {}, s3);
    assert RunMethod(table, {}, StaticCost4(), s2) == Run(s3, Completed);
    assert CostState(s1.visited + {Cost4()}, s1.cost + Cost4().cyclomaticComplexity - 1, s1.returnValue) == s2;
    assert RunOps(table, {}, inner, s2) == Run(s3, Completed);
    assert RunMethod(table, {}, Cost4(), s1) == Run(s3, Completed);
    assert CostState(Fresh.visited + {Indirection()}, Fresh.cost + Indirection().cyclomaticComplexity - 1, Fresh.returnValue) == s1;
  }

  const Cycle := ClassInfo("Cycle")

  function CycleA(): MethodInfo {
    Method(Cycle, "a", "()V", false, Private, 3, [Call(Cycle, "b", "()V", This)])
  }

  function CycleB(): MethodInfo {
    Method(Cycle, "b", "()V", false, Private, 2, [Call(Cycle, "a", "()V", This)])
  }

  /** A calls B and B calls A, both private: the walk from A terminates,
      visits both once and charges both baselines. */
  lemma MutualRecursionChargesEachOnce()
    ensures RunMethod(map[Entry(CycleA()).0 := CycleA(), Entry(CycleB()).0 := CycleB()], {This}, CycleA(), Fresh)
         == Run(CostState({CycleA(), CycleB()}, 3, None), Completed)
  {
    var a, b := CycleA(), CycleB();
    var table := map[Entry(a).0 := a, Entry(b).0 := b];
    var inA := CostState({a}, 2, None);
    var inB := CostState({a, b}, 3, None);
    EnterMethod(table, {This}, a, Fresh);
    assert KeyOf(a.operations[0].invokation) == Entry(b).0;
    assert Entry(a).0.nameDesc[0] == 'a' && Entry(b).0.nameDesc[0] == 'b';
    assert table[KeyOf(a.operations[0].invokation)] == b;
    assert a != b;
    UnvisitedCallEntersTarget(table, {This}, a.operations[0].invokation, inA);
    RunOneOp(table, {This}, a.operations[0], inA);
    assert a.operations == [a.operations[0]];
    EnterMethod(table, {This}, b, inA);
    assert KeyOf(b.operations[0].invokation) == Entry(a).0;
    assert table[KeyOf(b.operations[0].invokation)] == a;
    VisitedCallChangesNothing(table, {This}, b.operations[0].invokation, inB);
    RunOneOp(table, {This}, b.operations[0], inB);
    assert b.operations == [b.operations[0]];
    assert RunMethod(table, {This}, b, inA) == Run(inB, Completed);
    assert CostState(Fresh.visited + {a}, Fresh.cost + a.cyclomaticComplexity - 1, Fresh.returnValue) == inA;
  }
}
