/** The values the cost engine and the stack translator work on. Every Java
    class here keeps only final fields, so each one is an immutable datatype
    and its getters are the datatype's fields. */
module Types {

  /** JVM value types. Type.java is not part of this model; `IsDouble` follows
      section 2.6.1 of the JVM Specification: long and double take two
      operand-stack slots. */
  datatype JavaType = Boolean | Byte | Char | Short | Int | Float | Long | Double | Address | Void
  {
    predicate IsDouble() {
      this == Long || this == Double
    }
  }

  datatype Visibility = Public | Protected | Package | Private

  /** A storage location. Variable.java is not part of this model: `display`
      is the text its toString produces (for example "1{object}"). */
  datatype Variable = Variable(id: nat, display: string)

  /** FieldInfo.java is not part of this model: `display` is its toString. */
  datatype FieldInfo = FieldInfo(
    owner: string,
    name: string,
    fieldType: JavaType,
    isStatic: bool,
    isFinal: bool,
    display: string)

  /** ClassInfo.java is not part of this model; only its name is used. */
  datatype ClassInfo = ClassInfo(name: string)

  datatype Assignment = Assignment(lineNumber: int, target: FieldInfo, value: Variable)

  /** A call site: owner class, method name and descriptor, receiver and
      arguments in order. */
  datatype MethodInvokation = MethodInvokation(
    lineNumber: int,
    clazzName: string,
    name: string,
    signature: string,
    methodThis: Variable,
    parameters: seq<Variable>)

  datatype ReturnOperation = ReturnOperation(lineNumber: int, value: Variable)

  /** The variable-level operations a method body is translated into. */
  datatype Operation =
    | AssignmentOp(assignment: Assignment)
    | InvokationOp(invokation: MethodInvokation)
    | ReturnOp(ret: ReturnOperation)

  datatype MethodInfo = MethodInfo(
    classInfo: ClassInfo,
    name: string,
    desc: string,
    isStatic: bool,
    methodThis: Variable,
    parameters: seq<Variable>,
    localVariables: seq<Variable>,
    visibility: Visibility,
    cyclomaticComplexity: int,
    operations: seq<Operation>)
}
