/**
 * The stack machine of src/exec.c (execute_code and its OP_VAR_TYPE macro).
 *
 * Run is the meaning of a program: one Step per instruction until HALT.
 * ExecuteCode is the loop of execute_code over a fixed stack array and a
 * stack pointer, proved to compute Run.  Every exit(EXIT_FAILURE) of the
 * source, and every point where the C code would read outside its stack,
 * its program or its variable table, or would read a union member other
 * than the one last written, is a Fault.  A program whose jumps go backwards
 * need not stop, so the model gives the machine fuel: one unit per
 * instruction executed.
 */
module Exec {
  import opened Common
  import opened ExecDefs
  import opened ExprLexer
  import opened ExprSyntax

  /** MAX_STACK_SIZE and STACK_SIZE_BUFFER of src/exec.c. */
  const MaxStackSize: nat := 1024
  const StackSizeBuffer: nat := 10

  /** A stack entry: the type tag and the union of a C Variable (its name is never read). */
  datatype Slot = Slot(tag: DataType, payload: Payload)

  datatype Fault =
    | StackOverflow      // "Stack overflow!"
    | DivisionByZero     // "Division by zero!"
    | UnknownOpcode      // "Unknown op code!"
    | NoResults          // "No results!"
    | StackUnderflow     // an operator below the bottom of the stack
    | BadVarIndex        // PUSH_VAR outside the variable table
    | OutsideProgram     // the instruction pointer left the code
    | NotANumber         // .value read from a union holding something else
    | NotAString         // .str read from a union holding something else
    | OutOfFuel          // the model's bound on the number of instructions

  /**
   * Reading the union as a double: a number payload has one, and so has a
   * union never written, whose zero-initialised bytes read as 0.0.  A string
   * pointer or a struct tm read as a double is a fault.
   */
  function Num(s: Slot): (r: Option<real>)
    ensures r.Some? <==> s.payload.NumP? || s.payload.Unset?
    ensures r.Some? ==> r.value == if s.payload.NumP? then s.payload.x else 0.0
  {
    match s.payload
    case NumP(x) => Some(x)
    case Unset => Some(0.0)
    case _ => None
  }

  /** C's truth value of a comparison or logical operator, stored as a double. */
  function Bit(b: bool): (x: real)
    ensures x == 1.0 || x == 0.0
    ensures b <==> x == 1.0
  {
    if b then 1.0 else 0.0
  }

  predicate IsRelational(g: GenOp)
  {
    g == Neq || g == Le || g == Ge || g == Lt || g == Gt || g == Eq
  }

  function Compare(g: GenOp, a: real, b: real): bool
    requires IsRelational(g)
  {
    match g
    case Neq => a != b
    case Le => a <= b
    case Ge => a >= b
    case Lt => a < b
    case Gt => a > b
    case Eq => a == b
  }

  /**
   * The OP_VAR_TYPE macro: the left entry is retagged as a number before
   * the tags are compared, so the comparison is 0 unless the right entry is
   * a number, and its string branch is never taken.
   */
  function RelResult(g: GenOp, l: Slot, r: Slot): (res: Result<Slot, Fault>)
    requires IsRelational(g)
    ensures r.tag != VarNumber ==> res == Ok(Slot(VarNumber, NumP(0.0)))
    ensures res.Err? <==> r.tag == VarNumber && (Num(l).None? || Num(r).None?)
    ensures res.Ok? ==> res.value.tag == VarNumber && (res.value.payload == NumP(0.0) || res.value.payload == NumP(1.0))
    ensures res.Ok? && r.tag == VarNumber ==> (res.value.payload == NumP(1.0) <==> Compare(g, Num(l).value, Num(r).value))
  {
    if r.tag != VarNumber then Ok(Slot(VarNumber, NumP(0.0)))
    else match (Num(l), Num(r))
      case (Some(a), Some(b)) => Ok(Slot(VarNumber, NumP(Bit(Compare(g, a, b)))))
      case _ => Err(NotANumber)
  }

  /**
   * A generic binary operator applied to the two top entries l (below) and
   * r (top); the result replaces l, keeping l's tag except where the source
   * retags it.  && and || read their right operand only when C's
   * short-circuit does.
   */
  function BinaryResult(g: GenOp, l: Slot, r: Slot): (res: Result<Slot, Fault>)
    requires g != Not
    ensures res.Ok? ==> res.value.payload.NumP?
    ensures res.Ok? && !IsRelational(g) ==> res.value.tag == l.tag
    ensures res == Err(DivisionByZero) <==> g == Div && Num(r) == Some(0.0)
    ensures (g == And || g == Or) && res.Ok? ==> res.value.payload == NumP(0.0) || res.value.payload == NumP(1.0)
    ensures g == And && Num(l) == Some(0.0) ==> res == Ok(Slot(l.tag, NumP(0.0)))
    ensures g == Or && Num(l).Some? && Num(l).value != 0.0 ==> res == Ok(Slot(l.tag, NumP(1.0)))
  {
    match g
    case Add | Sub | Mul =>
      (match (Num(l), Num(r))
       case (Some(a), Some(b)) =>
         Ok(Slot(l.tag, NumP(if g == Add then a + b else if g == Sub then a - b else a * b)))
       case _ => Err(NotANumber))
    case Div =>
      (match Num(r)
       case None => Err(NotANumber)
       case Some(b) =>
         if b == 0.0 then Err(DivisionByZero)
         else match Num(l)
           case None => Err(NotANumber)
           case Some(a) => Ok(Slot(l.tag, NumP(a / b))))
    case And =>
      (match Num(l)
       case None => Err(NotANumber)
       case Some(a) =>
         if a == 0.0 then Ok(Slot(l.tag, NumP(0.0)))
         else match Num(r)
           case None => Err(NotANumber)
           case Some(b) => Ok(Slot(l.tag, NumP(Bit(b != 0.0)))))
    case Or =>
      (match Num(l)
       case None => Err(NotANumber)
       case Some(a) =>
         if a != 0.0 then Ok(Slot(l.tag, NumP(1.0)))
         else match Num(r)
           case None => Err(NotANumber)
           case Some(b) => Ok(Slot(l.tag, NumP(Bit(b != 0.0)))))
    case Neq | Le | Ge | Lt | Gt | Eq => RelResult(g, l, r)
  }

  /** OP_NOT on the top entry. */
  function NotResult(s: Slot): (res: Result<Slot, Fault>)
    ensures res.Err? <==> Num(s).None?
    ensures res.Ok? ==> res.value.tag == s.tag && (res.value.payload == NumP(0.0) || res.value.payload == NumP(1.0))
    ensures res.Ok? ==> (res.value.payload == NumP(1.0) <==> Num(s) == Some(0.0))
  {
    match Num(s)
    case None => Err(NotANumber)
    case Some(a) => Ok(Slot(s.tag, NumP(Bit(a == 0.0))))
  }

  /** OP_EQ_STR: strcmp of the two top strings; the result is a number. */
  function StrEqResult(l: Slot, r: Slot): (res: Result<Slot, Fault>)
    ensures res.Ok? <==> l.payload.StrP? && r.payload.StrP?
    ensures res.Ok? ==> res.value.tag == VarNumber && (res.value.payload == NumP(1.0) <==> l.payload == r.payload)
    ensures res.Ok? ==> res.value.payload == NumP(0.0) || res.value.payload == NumP(1.0)
  {
    match (l.payload, r.payload)
    case (StrP(a), StrP(b)) => Ok(Slot(VarNumber, NumP(Bit(a == b))))
    case _ => Err(NotAString)
  }

  /** How many entries an instruction that succeeds adds to the stack (negative: removes). */
  function StackEffect(op: Op): (e: int)
    ensures -1 <= e <= 1
    ensures e == 1 <==> op == PushNum || op == PushVar || op == PushStr
  {
    match op
    case PushNum | PushVar | PushStr => 1
    case Jpz => -1
    case Generic(g) => if g == Not then 0 else -1
    case StrOp(_) => -1
    case _ => 0
  }

  /** The entry PUSH_VAR copies from the variable table. */
  function VarSlot(v: Variable): Slot
  {
    Slot(v.vtype, v.payload)
  }

  /**
   * One pass of the switch of execute_code on the instruction at pc, with
   * stack st (its top last): the next instruction pointer and the new stack.
   */
  function Step(ins: Instr, pc: int, st: seq<Slot>, vars: seq<Variable>): (r: Result<(int, seq<Slot>), Fault>)
    requires ins.op != Halt
    ensures r.Ok? ==> |r.value.1| == |st| + StackEffect(ins.op)
    ensures r.Ok? && !IsJump(ins.op) ==> r.value.0 == pc + 1
  {
    match ins.op
    case Nop => Ok((pc + 1, st))
    case PushNum =>
      (match ins.arg
       case Value(x) => Ok((pc + 1, st + [Slot(VarNumber, NumP(x))]))
       case Str(_) => Err(NotANumber))
    case PushVar =>
      (match ins.arg
       case Value(x) =>
         var k := Trunc(x);
         if 0 <= k < |vars| then Ok((pc + 1, st + [VarSlot(vars[k])])) else Err(BadVarIndex)
       case Str(_) => Err(NotANumber))
    case PushStr =>
      (match ins.arg
       case Str(s) => Ok((pc + 1, st + [Slot(VarString, StrP(s))]))
       case Value(_) => Err(NotAString))
    case Jp =>
      (match ins.arg
       case Value(x) => Ok((Trunc(x), st))
       case Str(_) => Err(NotANumber))
    case Jpz =>
      if |st| < 1 then Err(StackUnderflow)
      else
        (match Num(st[|st| - 1])
         case None => Err(NotANumber)
         case Some(v) =>
           if v != 0.0 then Ok((pc + 1, st[..|st| - 1]))
           else match ins.arg
             case Value(x) => Ok((Trunc(x), st[..|st| - 1]))
             case Str(_) => Err(NotANumber))
    case Generic(g) =>
      if g == Not then
        if |st| < 1 then Err(StackUnderflow)
        else
          (match NotResult(st[|st| - 1])
           case Err(f) => Err(f)
           case Ok(s) => Ok((pc + 1, st[..|st| - 1] + [s])))
      else if |st| < 2 then Err(StackUnderflow)
      else
        (match BinaryResult(g, st[|st| - 2], st[|st| - 1])
         case Err(f) => Err(f)
         case Ok(s) => Ok((pc + 1, st[..|st| - 2] + [s])))
    case StrOp(g) =>
      if g != Eq then Err(UnknownOpcode)
      else if |st| < 2 then Err(StackUnderflow)
      else
        (match StrEqResult(st[|st| - 2], st[|st| - 1])
         case Err(f) => Err(f)
         case Ok(s) => Ok((pc + 1, st[..|st| - 2] + [s])))
    case NumOp(_) => Err(UnknownOpcode)
  }

  /** After HALT: exactly one entry must be left, and the result is whether it is non-zero. */
  function Finish(st: seq<Slot>): (r: Result<bool, Fault>)
    ensures |st| != 1 ==> r == Err(NoResults)
    ensures r.Ok? ==> |st| == 1 && Num(st[0]).Some? && (r.value <==> Num(st[0]).value != 0.0)
  {
    if |st| != 1 then Err(NoResults)
    else match Num(st[0])
      case None => Err(NotANumber)
      case Some(x) => Ok(x != 0.0)
  }

  /**
   * The run of code from instruction pc with stack st and at most fuel
   * instructions: HALT ends it, a fault or the loss of fuel stops it.
   */
  function Run(code: seq<Instr>, vars: seq<Variable>, pc: int, st: seq<Slot>, fuel: nat): Result<bool, Fault>
    decreases fuel
  {
    if pc < 0 || pc >= |code| then Err(OutsideProgram)
    else if code[pc].op == Halt then Finish(st)
    else if fuel == 0 then Err(OutOfFuel)
    else if |st| + StackSizeBuffer >= MaxStackSize then Err(StackOverflow)
    else match Step(code[pc], pc, st, vars)
      case Err(f) => Err(f)
      case Ok((next, st')) => Run(code, vars, next, st', fuel - 1)
  }

  // ---------------------------------------------------------------------
  // execute_code over a stack array
  // ---------------------------------------------------------------------

  /**
   * The switch of execute_code on the array stack[..sp]: pushes write
   * stack[sp], operators overwrite the entry below the top in place.
   */
  method ExecInstr(stack: array<Slot>, sp: nat, ins: Instr, pc: int, vars: seq<Variable>)
    returns (r: Result<(int, nat), Fault>)
    requires ins.op != Halt && sp < stack.Length
    modifies stack
    ensures r.Err? ==> Step(ins, pc, old(stack[..sp]), vars) == Err(r.error)
    ensures r.Ok? ==> r.value.1 <= stack.Length
    ensures r.Ok? ==> Step(ins, pc, old(stack[..sp]), vars) == Ok((r.value.0, stack[..r.value.1]))
  {
    ghost var st := stack[..sp];
    match ins.op
    case Nop =>
      r := Ok((pc + 1, sp));
    case PushNum =>
      if ins.arg.Str? {
        return Err(NotANumber);
      }
      Push(stack, sp, Slot(VarNumber, NumP(ins.arg.x)));
      r := Ok((pc + 1, sp + 1));
    case PushVar =>
      if ins.arg.Str? {
        return Err(NotANumber);
      }
      var k := Trunc(ins.arg.x);
      if k < 0 || k >= |vars| {
        return Err(BadVarIndex);
      }
      Push(stack, sp, VarSlot(vars[k]));
      r := Ok((pc + 1, sp + 1));
    case PushStr =>
      if ins.arg.Value? {
        return Err(NotAString);
      }
      Push(stack, sp, Slot(VarString, StrP(ins.arg.s)));
      r := Ok((pc + 1, sp + 1));
    case Jp =>
      if ins.arg.Str? {
        return Err(NotANumber);
      }
      r := Ok((Trunc(ins.arg.x), sp));
    case Jpz =>
      if sp < 1 {
        return Err(StackUnderflow);
      }
      var top := Num(stack[sp - 1]);
      if top.None? {
        return Err(NotANumber);
      }
      assert stack[..sp - 1] == st[..|st| - 1];
      if top.value != 0.0 {
        r := Ok((pc + 1, sp - 1));
      } else if ins.arg.Str? {
        r := Err(NotANumber);
      } else {
        r := Ok((Trunc(ins.arg.x), sp - 1));
      }
    case Generic(g) =>
      if g == Not {
        if sp < 1 {
          return Err(StackUnderflow);
        }
        var s := NotResult(stack[sp - 1]);
        if s.Err? {
          return Err(s.error);
        }
        assert st[..|st| - 1] == stack[..sp - 1];
        ReplaceTop(stack, sp, s.value);
        r := Ok((pc + 1, sp));
      } else {
        if sp < 2 {
          return Err(StackUnderflow);
        }
        var s := BinaryResult(g, stack[sp - 2], stack[sp - 1]);
        if s.Err? {
          return Err(s.error);
        }
        assert st[..|st| - 2] == stack[..sp - 2];
        Combine(stack, sp, s.value);
        r := Ok((pc + 1, sp - 1));
      }
    case StrOp(g) =>
      if g != Eq {
        return Err(UnknownOpcode);
      }
      if sp < 2 {
        return Err(StackUnderflow);
      }
      var s := StrEqResult(stack[sp - 2], stack[sp - 1]);
      if s.Err? {
        return Err(s.error);
      }
      assert st[..|st| - 2] == stack[..sp - 2];
      Combine(stack, sp, s.value);
      r := Ok((pc + 1, sp - 1));
    case NumOp(_) =>
      r := Err(UnknownOpcode);
  }

  /** (*sp).type = ...; (*sp).value = ...; sp++ */
  method Push(stack: array<Slot>, sp: nat, s: Slot)
    requires sp < stack.Length
    modifies stack
    ensures stack[..sp + 1] == old(stack[..sp]) + [s]
  {
    stack[sp] := s;
  }

  /** sp[-1] overwritten in place. */
  method ReplaceTop(stack: array<Slot>, sp: nat, s: Slot)
    requires 1 <= sp <= stack.Length
    modifies stack
    ensures stack[..sp] == old(stack[..sp - 1]) + [s]
  {
    stack[sp - 1] := s;
  }

  /** sp--; sp[-1] overwritten in place. */
  method Combine(stack: array<Slot>, sp: nat, s: Slot)
    requires 2 <= sp <= stack.Length
    modifies stack
    ensures stack[..sp - 1] == old(stack[..sp - 2]) + [s]
  {
    stack[sp - 2] := s;
  }

  /**
   * execute_code: the instruction loop over a local stack of MAX_STACK_SIZE
   * entries, then the single-result check.  It computes Run.
   */
  method ExecuteCode(code: seq<Instr>, vars: seq<Variable>, fuel: nat) returns (r: Result<bool, Fault>)
    ensures r == Run(code, vars, 0, [], fuel)
  {
    var stack := new Slot[MaxStackSize](_ => Slot(VarUnknown, Unset));
    var sp: nat := 0;
    var pc: int := 0;
    var left := fuel;
    while true
      invariant sp <= stack.Length == MaxStackSize
      invariant Run(code, vars, pc, stack[..sp], left) == Run(code, vars, 0, [], fuel)
      decreases left
    {
      if pc < 0 || pc >= |code| {
        return Err(OutsideProgram);
      }
      var ins := code[pc];
      if ins.op == Halt {
        break;
      }
      if left == 0 {
        return Err(OutOfFuel);
      }
      if sp + StackSizeBuffer >= MaxStackSize {
        return Err(StackOverflow);
      }
      var step := ExecInstr(stack, sp, ins, pc, vars);
      if step.Err? {
        return Err(step.error);
      }
      pc, sp, left := step.value.0, step.value.1, left - 1;
    }
    if sp != 1 {
      return Err(NoResults);
    }
    var top := Num(stack[0]);
    if top.None? {
      return Err(NotANumber);
    }
    assert stack[..sp] == [stack[0]];
    r := Ok(top.value != 0.0);
  }

  // ---------------------------------------------------------------------
  // Properties of the machine
  // ---------------------------------------------------------------------

  /** In code whose jumps all go forward, every instruction that succeeds moves pc forward, and not past the end. */
  lemma StepMovesForward(code: seq<Instr>, vars: seq<Variable>, pc: nat, st: seq<Slot>)
    requires JumpsForward(code, 0) && pc < |code| && code[pc].op != Halt
    requires Step(code[pc], pc, st, vars).Ok?
    ensures pc < Step(code[pc], pc, st, vars).value.0 <= |code|
  {
    if IsJump(code[pc].op) {
      assert code[pc].arg.Value? && pc < Trunc(code[pc].arg.x) <= |code|;
    }
  }

  /**
   * A program whose jumps all go forward stops, by HALT or by a fault other
   * than running out of fuel, within one instruction per remaining position.
   */
  lemma {:induction false} ForwardProgramsStop(code: seq<Instr>, vars: seq<Variable>, pc: int, st: seq<Slot>, fuel: nat)
    requires JumpsForward(code, 0)
    requires 0 <= pc && |code| - pc <= fuel
    ensures Run(code, vars, pc, st, fuel) != Err(OutOfFuel)
    decreases fuel
  {
    if pc < |code| && code[pc].op != Halt && |st| + StackSizeBuffer < MaxStackSize {
      var r := Step(code[pc], pc, st, vars);
      if r.Ok? {
        StepMovesForward(code, vars, pc, st);
        ForwardProgramsStop(code, vars, r.value.0, r.value.1, fuel - 1);
      }
    }
  }

  /** Every program parse_expression returns runs to completion with fuel equal to its length. */
  lemma CompiledProgramsStop(t: Expr, vars: seq<Variable>, fuel: nat)
    requires HasEnd(vars)
    requires |ExprCode(t, 0, vars)| + 1 <= fuel
    ensures Run(ExprCode(t, 0, vars) + [Instr(Halt, Value(0.0))], vars, 0, [], fuel) != Err(OutOfFuel)
  {
    ExprJumpsForward(t, 0, vars);
    JumpsForwardAppend(ExprCode(t, 0, vars), [Instr(Halt, Value(0.0))], 0);
    ForwardProgramsStop(ExprCode(t, 0, vars) + [Instr(Halt, Value(0.0))], vars, 0, [], fuel);
  }

  /**
   * "-5": parse_factor emits nothing for the missing left operand, so the
   * program is PUSH 5; SUB; HALT and SUB finds a single entry on the stack.
   */
  lemma LeadingMinusUnderflows(x: real, vars: seq<Variable>, fuel: nat)
    requires HasEnd(vars) && fuel >= 2
    ensures var t := ArithExpr(ABin(ATerm(TFactor(FEmpty)), Sub, TFactor(FNum(x))));
      && ExprTokens(t) == [Sym(Generic(Sub)), Number(x)]
      && ExprCode(t, 0, vars) == [Instr(PushNum, Value(x)), OpInstr(Sub)]
      && Run(ExprCode(t, 0, vars) + [Instr(Halt, Value(0.0))], vars, 0, [], fuel) == Err(StackUnderflow)
  {
    var t := ArithExpr(ABin(ATerm(TFactor(FEmpty)), Sub, TFactor(FNum(x))));
    var code := ExprCode(t, 0, vars) + [Instr(Halt, Value(0.0))];
    var l := ATerm(TFactor(FEmpty));
    assert FactorCode(FEmpty, 0, vars) == [] && FactorTokens(FEmpty) == [];
    assert TermCode(TFactor(FEmpty), 0, vars) == [] && TermTokens(TFactor(FEmpty)) == [];
    assert ArithCode(l, 0, vars) == [] && ArithTokens(l) == [];
    assert TermCode(TFactor(FNum(x)), 0, vars) == [Instr(PushNum, Value(x))];
    assert ExprCode(t, 0, vars) == [] + [Instr(PushNum, Value(x))] + [OpInstr(Sub)];
    assert TermTokens(TFactor(FNum(x))) == [Number(x)];
    assert ArithTokens(t.a) == [] + [Sym(Generic(Sub))] + [Number(x)];
    assert Run(code, vars, 0, [], fuel) == Run(code, vars, 1, [Slot(VarNumber, NumP(x))], fuel - 1);
  }

  /**
   * A generic comparison whose right operand is not a number is 0, whatever
   * the left operand: two equal strings compare as false under '='.
   */
  lemma ComparisonWithNonNumberIsZero(g: GenOp, l: Slot, r: Slot)
    requires IsRelational(g) && r.tag != VarNumber
    ensures BinaryResult(g, l, r) == Ok(Slot(VarNumber, NumP(0.0)))
  {
  }

  /** OP_EQ_STR yields 1 exactly for two equal strings, 0 for two different ones, and faults otherwise. */
  lemma StrEqMeansEqualStrings(l: Slot, r: Slot)
    ensures StrEqResult(l, r).Ok? <==> l.payload.StrP? && r.payload.StrP?
    ensures StrEqResult(l, r) == Ok(Slot(VarNumber, NumP(1.0))) <==> l.payload.StrP? && r.payload.StrP? && l.payload.s == r.payload.s
  {
  }

  /** HALT with other than exactly one entry is "No results!"; with one number it is that number's truth. */
  lemma HaltNeedsOneResult(code: seq<Instr>, vars: seq<Variable>, pc: nat, st: seq<Slot>, fuel: nat)
    requires pc < |code| && code[pc].op == Halt
    ensures |st| != 1 ==> Run(code, vars, pc, st, fuel) == Err(NoResults)
    ensures Run(code, vars, pc, st, fuel).Ok? <==> |st| == 1 && Num(st[0]).Some?
    ensures Run(code, vars, pc, st, fuel) == Ok(true) <==> |st| == 1 && st[0].payload.NumP? && st[0].payload.x != 0.0
  {
  }

  /** Stack overflow is checked before every instruction other than HALT. */
  lemma OverflowBeforeEveryInstruction(code: seq<Instr>, vars: seq<Variable>, pc: int, st: seq<Slot>, fuel: nat)
    requires 0 <= pc < |code| && code[pc].op != Halt && fuel > 0
    requires |st| + StackSizeBuffer >= MaxStackSize
    ensures Run(code, vars, pc, st, fuel) == Err(StackOverflow)
  {
  }

  /**
   * ADD, SUB and MUL of two numbers keep the left entry's tag; DIV aborts
   * exactly when the divisor is 0, and otherwise divides.
   */
  lemma ArithmeticOnNumbers(g: GenOp, l: Slot, r: Slot)
    requires (g == Add || g == Sub || g == Mul || g == Div) && l.payload.NumP? && r.payload.NumP?
    ensures BinaryResult(g, l, r).Err? <==> g == Div && r.payload.x == 0.0
    ensures BinaryResult(g, l, r).Err? ==> BinaryResult(g, l, r).error == DivisionByZero
    ensures BinaryResult(g, l, r).Ok? ==> BinaryResult(g, l, r).value.tag == l.tag
    ensures g == Div && r.payload.x != 0.0 ==>
      BinaryResult(g, l, r) == Ok(Slot(l.tag, NumP(l.payload.x / r.payload.x)))
  {
  }

  /**
   * A comparison with a number on the right is the 0/1 numeric comparison,
   * tagged as a number; a left entry never written compares as 0.
   */
  lemma ComparisonOfNumbers(g: GenOp, l: Slot, r: Slot)
    requires IsRelational(g) && r.tag == VarNumber && (l.payload.NumP? || l.payload.Unset?) && r.payload.NumP?
    ensures BinaryResult(g, l, r)
            == Ok(Slot(VarNumber, NumP(Bit(Compare(g, if l.payload.NumP? then l.payload.x else 0.0, r.payload.x)))))
  {
  }

  /** AND and OR yield 1 exactly when C's && and || are true, and 0 otherwise; so does NOT. */
  lemma LogicalIsZeroOrOne(g: GenOp, l: Slot, r: Slot)
    requires g == And || g == Or
    requires l.payload.NumP? && r.payload.NumP?
    ensures BinaryResult(g, l, r).Ok?
    ensures var x := BinaryResult(g, l, r).value.payload.x;
      (x == 0.0 || x == 1.0)
      && (x == 1.0 <==> if g == And then l.payload.x != 0.0 && r.payload.x != 0.0
                       else l.payload.x != 0.0 || r.payload.x != 0.0)
    ensures NotResult(l) == Ok(Slot(l.tag, NumP(if l.payload.x == 0.0 then 1.0 else 0.0)))
  {
  }

  /** JPZ pops its test and continues at its target iff the test is 0; JP always continues at its target. */
  lemma JumpTargets(code: seq<Instr>, vars: seq<Variable>, pc: int, st: seq<Slot>, fuel: nat, x: real)
    requires 0 <= pc < |code| && fuel > 0 && |st| + StackSizeBuffer < MaxStackSize
    requires code[pc] == Instr(Jpz, Value(x)) || code[pc] == Instr(Jp, Value(x))
    requires code[pc].op == Jpz ==> |st| >= 1 && st[|st| - 1].payload.NumP?
    ensures code[pc].op == Jp ==> Run(code, vars, pc, st, fuel) == Run(code, vars, Trunc(x), st, fuel - 1)
    ensures code[pc].op == Jpz ==>
      Run(code, vars, pc, st, fuel)
      == Run(code, vars, if st[|st| - 1].payload.x == 0.0 then Trunc(x) else pc + 1, st[..|st| - 1], fuel - 1)
  {
  }

  /** Every opcode of the number family, and of the string family but OP_EQ_STR, aborts. */
  lemma UnhandledOpcodesAbort(ins: Instr, pc: int, st: seq<Slot>, vars: seq<Variable>)
    requires ins.op.NumOp? || (ins.op.StrOp? && ins.op.g != Eq)
    ensures Step(ins, pc, st, vars) == Err(UnknownOpcode)
  {
  }
}
