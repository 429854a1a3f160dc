/** The PutField stack operation: JVM putfield/putstatic (section 6.5 of
    the JVM Specification). It consumes the receiver (instance fields only)
    and the value, which takes two slots for long and double (section 2.6.1),
    and becomes an Assignment of the value to the field. */
module PutFields {
  import opened Types

  datatype PutField = PutField(lineNumber: int, fieldInfo: FieldInfo)

  /** Operand-stack slots taken by the value. */
  function ValueSlots(f: FieldInfo): nat {
    if f.fieldType.IsDouble() then 2 else 1
  }

  /** Operand-stack slots taken by the receiver. */
  function ReceiverSlots(f: FieldInfo): nat {
    if f.isStatic then 0 else 1
  }

  /** getOperatorCount: the slots the instruction pops, one to three. */
  function OperatorCount(p: PutField): (n: nat)
    ensures 1 <= n <= 3
    ensures n == ValueSlots(p.fieldInfo) + ReceiverSlots(p.fieldInfo)
    ensures n == 1 <==> p.fieldInfo.isStatic && !p.fieldInfo.fieldType.IsDouble()
    ensures n == 3 <==> !p.fieldInfo.isStatic && p.fieldInfo.fieldType.IsDouble()
  {
    var valueCount := if p.fieldInfo.fieldType.IsDouble() then 2 else 1;
    var fieldThis := if p.fieldInfo.isStatic then 0 else 1;
    valueCount + fieldThis
  }

  /** toOperation: `input` holds the popped slots, bottom first. The value
      assigned is the first slot above the receiver, never the receiver. */
  function ToOperation(p: PutField, input: seq<Variable>): (r: Operation)
    requires OperatorCount(p) <= |input|
    ensures r.AssignmentOp?
    ensures r.assignment.lineNumber == p.lineNumber && r.assignment.target == p.fieldInfo
    ensures r.assignment.value == input[ReceiverSlots(p.fieldInfo)]
  {
    var variable := input[if p.fieldInfo.isStatic then 0 else 1];
    AssignmentOp(Assignment(p.lineNumber, p.fieldInfo, variable))
  }

  /** "put " then "static " for a static field, then the field. */
  function PutFieldText(p: PutField): (r: string)
    ensures |r| >= 4 && r[..4] == "put "
    ensures p.fieldInfo.isStatic ==> r == "put static " + p.fieldInfo.display
    ensures !p.fieldInfo.isStatic ==> r == "put " + p.fieldInfo.display
  {
    "put " + (if p.fieldInfo.isStatic then "static " else "") + p.fieldInfo.display
  }

  /** The stack layout putfield expects (receiver, then the value's slots)
      is exactly the operator count, and the assignment takes the value's
      first slot: for an instance field the receiver is skipped. */
  lemma {:induction false} AssignsFirstValueSlot(p: PutField, receiver: seq<Variable>, value: seq<Variable>)
    requires |receiver| == ReceiverSlots(p.fieldInfo) && |value| == ValueSlots(p.fieldInfo)
    ensures |receiver + value| == OperatorCount(p)
    ensures ToOperation(p, receiver + value).assignment.value == value[0]
  {
    assert (receiver + value)[|receiver|] == value[0];
  }

  /** The block translation tests: a static put after `load 1` assigns 1;
      an instance put after `load this`, `load 1` assigns 1, not `this`. */
  lemma BlockTestAssignments(this_: Variable, one: Variable, abc: FieldInfo)
    requires abc.fieldType == Address
    ensures var put := PutField(-1, abc.(isStatic := true));
            ToOperation(put, [one]) == AssignmentOp(Assignment(-1, abc.(isStatic := true), one))
    ensures var put := PutField(-1, abc.(isStatic := false));
            ToOperation(put, [this_, one]) == AssignmentOp(Assignment(-1, abc.(isStatic := false), one))
  {
  }
}
