/**
 * The instruction and value layouts of hdr/exec.h.
 *
 * The header numbers its opcodes in three families: the generic ones
 * (OP_ADD .. OP_NOT from OP_BASE = 7), the number family (from 20) and the
 * string family (from 33).  The model keeps that layout as constructors.
 */
module ExecDefs {

  /** The thirteen operators that exist in every opcode family. */
  datatype GenOp = Add | Sub | Mul | Div | Neq | Le | Ge | Lt | Gt | Eq | And | Or | Not

  /** Every opcode of hdr/exec.h. */
  datatype Op =
    | Nop | PushNum | PushVar | PushStr | Jp | Jpz | Halt
    | Generic(g: GenOp)   // OP_ADD .. OP_NOT
    | NumOp(g: GenOp)     // OP_ADD_NUM .. OP_NOT_NUM
    | StrOp(g: GenOp)     // OP_ADD_STR .. OP_NOT_STR

  /** Position of an operator inside its family. */
  function FamilyIndex(g: GenOp): (k: nat)
    ensures k < 13
  {
    match g
    case Add => 0 case Sub => 1 case Mul => 2 case Div => 3 case Neq => 4
    case Le => 5 case Ge => 6 case Lt => 7 case Gt => 8 case Eq => 9
    case And => 10 case Or => 11 case Not => 12
  }

  /** The integer value hdr/exec.h gives each opcode. */
  function OpCode(op: Op): (c: int)
    ensures 0 <= c <= 45
    ensures op.Generic? <==> 7 <= c < 20
    ensures op.NumOp? <==> 20 <= c < 33
    ensures op.StrOp? <==> 33 <= c
  {
    match op
    case Nop => 0 case PushNum => 1 case PushVar => 2 case PushStr => 3
    case Jp => 4 case Jpz => 5 case Halt => 6
    case Generic(g) => 7 + FamilyIndex(g)
    case NumOp(g) => 20 + FamilyIndex(g)
    case StrOp(g) => 33 + FamilyIndex(g)
  }

  /** The DataType tags VAR_NUMBER .. VAR_END. */
  datatype DataType = VarNumber | VarString | VarDatetime | VarIdx | VarUnknown | VarEnd

  /** The fields of a C `struct tm` that a date-time column fills in. */
  datatype DateTime = DateTime(year: int, month: int, day: int, hour: int, minute: int, second: int)

  /**
   * What the union of a Variable currently holds.  `Unset` stands for a slot
   * whose union the program has never written.
   */
  datatype Payload = NumP(x: real) | StrP(s: string) | TimeP(t: DateTime) | Unset

  /** One entry of a variable table. */
  datatype Variable = Variable(name: string, vtype: DataType, payload: Payload)

  /** The union of an Instruction: a number (literal, index, jump target) or a string literal. */
  datatype Operand = Value(x: real) | Str(s: string)

  datatype Instr = Instr(op: Op, arg: Operand)

  /** MAX_CODE_SIZE of src/expr.c. */
  const MaxCodeSize: nat := 1024

  /** A table can be scanned by name only if a VAR_END sentinel ends it. */
  predicate HasEnd(vars: seq<Variable>)
  {
    exists i :: 0 <= i < |vars| && vars[i].vtype == VarEnd
  }

  /** The index of the first VAR_END sentinel. */
  function EndIndex(vars: seq<Variable>): (e: nat)
    requires HasEnd(vars)
    ensures e < |vars| && vars[e].vtype == VarEnd
    ensures forall j :: 0 <= j < e ==> vars[j].vtype != VarEnd
  {
    if vars[0].vtype == VarEnd then 0
    else
      assert HasEnd(vars[1..]) by {
        var i :| 0 <= i < |vars| && vars[i].vtype == VarEnd;
        assert vars[1..][i - 1].vtype == VarEnd;
      }
      1 + EndIndex(vars[1..])
  }

  /** C's (int) cast of a double: truncation toward zero. */
  function Trunc(x: real): (n: int)
    ensures x >= 0.0 ==> n as real <= x < n as real + 1.0
    ensures x < 0.0 ==> n as real - 1.0 < x <= n as real
  {
    if x >= 0.0 then x.Floor else -((-x).Floor)
  }
}
