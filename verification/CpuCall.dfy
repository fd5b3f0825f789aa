/** CALL and RET: the return address is the one after the operand, and RET undoes CALL; conditional
    forms do the same or nothing. */
module CpuCall {
  import opened Common
  import opened CpuModel
  import opened CpuInvariant
  import opened CpuReturn

  const CALL: byte := 0xCD
  const RET: byte := 0xC9

  /** The machine after the first `steps` steps of an instruction. */
  function Executed(isa: Isa, m: Machine, opcode: byte, steps: nat): Option<Machine> {
    if steps == 0 then Some(m)
    else
      match Executed(isa, m, opcode, steps - 1)
      case None => None
      case Some(before) => Exec(isa, before, opcode, steps - 1)
  }

  lemma ExecutedNext(isa: Isa, m: Machine, opcode: byte, steps: nat)
    ensures Executed(isa, m, opcode, 0) == Some(m)
    ensures Executed(isa, m, opcode, steps).Some? ==>
      Executed(isa, m, opcode, steps + 1) == Exec(isa, Executed(isa, m, opcode, steps).value, opcode, steps)
  {
    hide Exec;
  }

  /** The address CALL jumps to. */
  function Target(m: Machine): word {
    Joined(Read(m, m.cpu.pc), Read(m, Word(m.cpu.pc + 1)))
  }

  lemma CallReads(isa: Isa, m: Machine)
    ensures Executed(isa, m, CALL, 4) == Some(m.(cpu := m.cpu.(
      pc := Word(m.cpu.pc + 2), cache8 := Read(m, m.cpu.pc), cache16 := Target(m))))
  {
    ExecutedNext(isa, m, CALL, 0);
    ExecutedNext(isa, m, CALL, 1);
    ExecutedNext(isa, m, CALL, 2);
    ExecutedNext(isa, m, CALL, 3);
    NextNext(m.cpu.pc);
    hide Executed, Read, Joined, Word, Push;
    ReadIgnoresCpu(m, m.cpu.(cache8 := Read(m, m.cpu.pc), pc := Word(m.cpu.pc + 1)), Word(m.cpu.pc + 1));
  }

  /** CALL pushes the address after its operand, high byte first, and jumps to the operand. */
  lemma CallPushes(isa: Isa, m: Machine)
    requires StackInMemory(m.cpu)
    ensures var back := Word(m.cpu.pc + 2);
      Executed(isa, m, CALL, 6) == Some(m.(
        cpu := m.cpu.(pc := Target(m), sp := Lower(m.cpu), cache8 := Read(m, m.cpu.pc), cache16 := Target(m)),
        mem := m.mem[Upper(m.cpu) := High(back)][Lower(m.cpu) := Low(back)]))
  {
    CallReads(isa, m);
    ExecutedNext(isa, m, CALL, 4);
    ExecutedNext(isa, m, CALL, 5);
    StackWords(m.cpu);
    hide Executed, Read, Joined, Word, Push, High, Low, Upper, Lower, Target, PlainMemory;
    var m4 := Executed(isa, m, CALL, 4).value;
    UpperOf(m.cpu, m4.cpu);
    PushInMemory(m4, High(m4.cpu.pc));
    var m5 := Push(m4, High(m4.cpu.pc));
    UpperOf(m5.cpu, m5.cpu);
    PushInMemory(m5, Low(m5.cpu.pc));
  }

  lemma UpperOf(a: Cpu, b: Cpu)
    requires a.sp == b.sp
    ensures Upper(a) == Upper(b) && Lower(a) == Lower(b) && Upper(a) == Word(a.sp - 1)
  {
  }

  lemma RetReads(isa: Isa, m: Machine)
    ensures Executed(isa, m, RET, 2) == Some(m.(cpu := m.cpu.(cache8 := Read(m, m.cpu.sp), sp := Word(m.cpu.sp + 1))))
  {
    ExecutedNext(isa, m, RET, 0);
    ExecutedNext(isa, m, RET, 1);
    hide Executed, Read, Joined, Word;
  }

  /** RET alone: the two bytes at the stack pointer become the program counter. */
  lemma RetPops(isa: Isa, m: Machine)
    ensures var low, back := Read(m, m.cpu.sp), Joined(Read(m, m.cpu.sp), Read(m, Word(m.cpu.sp + 1)));
      Executed(isa, m, RET, 4) ==
        Some(m.(cpu := m.cpu.(cache8 := low, cache16 := back, pc := back, sp := Word(m.cpu.sp + 2))))
  {
    RetReads(isa, m);
    ExecutedNext(isa, m, RET, 2);
    ExecutedNext(isa, m, RET, 3);
    NextNext(m.cpu.sp);
    hide Executed, Read, Joined, Word;
    ReadIgnoresCpu(m, Executed(isa, m, RET, 2).value.cpu, Word(m.cpu.sp + 1));
  }

  /** RET undoes CALL: the program goes on after the operand with the stack pointer it had, wherever in
      memory the stack is and wherever the subroutine's RET stands. */
  lemma RetUndoesCall(isa: Isa, m: Machine, pc: word)
    requires StackInMemory(m.cpu)
    ensures Executed(isa, m, CALL, 6).Some?
    ensures var inside := Executed(isa, m, CALL, 6).value;
      var after := Executed(isa, inside.(cpu := inside.cpu.(pc := pc)), RET, 4);
      && after.Some?
      && after.value.cpu.pc == Word(m.cpu.pc + 2) && after.value.cpu.sp == m.cpu.sp
      && after.value.mem == inside.mem && after.value.irqs == m.irqs
  {
    CallPushes(isa, m);
    StackWords(m.cpu);
    SplitWord(Word(m.cpu.pc + 2));
    hide Executed, Joined, High, Low, Target, Word, Upper, Lower;
    var inside := Executed(isa, m, CALL, 6).value;
    RetPops(isa, inside.(cpu := inside.cpu.(pc := pc)));
  }

  // ---------------------------------------------------------------- conditional forms

  lemma StepKeepsFlags(isa: Isa, m: Machine, opcode: byte, step: nat)
    requires (opcode == CALL && step < 6) || (opcode == RET && step < 4)
    ensures var after := Exec(isa, m, opcode, step); after.Some? && after.value.cpu.alu == m.cpu.alu
  {
    PushKeeps(m, High(m.cpu.pc));
    PushKeeps(m, Low(m.cpu.pc));
    hide Read, Joined, Push;
  }

  lemma {:induction false} SameFlags(isa: Isa, m: Machine, opcode: byte, steps: nat)
    requires (opcode == CALL && steps <= 6) || (opcode == RET && steps <= 4)
    ensures Executed(isa, m, opcode, steps).Some? && Executed(isa, m, opcode, steps).value.cpu.alu == m.cpu.alu
  {
    hide Executed, Exec;
    ExecutedNext(isa, m, opcode, 0);
    if steps > 0 {
      SameFlags(isa, m, opcode, steps - 1);
      ExecutedNext(isa, m, opcode, steps - 1);
      StepKeepsFlags(isa, Executed(isa, m, opcode, steps - 1).value, opcode, steps - 1);
    }
  }

  lemma PlainForms()
    ensures Decode(CALL) == Instruction.Call && Decode(RET) == Instruction.Ret
  {
  }

  /** With its condition met a conditional call is CALL, step for step; otherwise its three steps only
      skip the operand. */
  lemma {:induction false} ConditionalCall(isa: Isa, m: Machine, opcode: byte, steps: nat)
    requires Decode(opcode).CallIf? && steps <= (if Holds(Decode(opcode).c, m.cpu) then 6 else 3)
    ensures Executed(isa, m, opcode, steps) ==
      if Holds(Decode(opcode).c, m.cpu) then Executed(isa, m, CALL, steps)
      else Some(if steps == 3 then m.(cpu := m.cpu.(pc := Word(m.cpu.pc + 2))) else m)
  {
    hide Executed, ExecCall, Decode;
    PlainForms();
    ExecutedNext(isa, m, opcode, 0);
    ExecutedNext(isa, m, CALL, 0);
    if steps > 0 {
      ConditionalCall(isa, m, opcode, steps - 1);
      ExecutedNext(isa, m, opcode, steps - 1);
      if Holds(Decode(opcode).c, m.cpu) {
        SameFlags(isa, m, CALL, steps - 1);
        ExecutedNext(isa, m, CALL, steps - 1);
      }
    }
  }

  /** With its condition met a conditional return is an idle step and then RET; otherwise nothing. */
  lemma {:induction false} ConditionalRet(isa: Isa, m: Machine, opcode: byte, steps: nat)
    requires Decode(opcode).RetIf? && 1 <= steps <= (if Holds(Decode(opcode).c, m.cpu) then 5 else 2)
    ensures Executed(isa, m, opcode, steps) ==
      if Holds(Decode(opcode).c, m.cpu) then Executed(isa, m, RET, steps - 1) else Some(m)
  {
    hide Executed, ExecRet, Decode;
    PlainForms();
    ExecutedNext(isa, m, opcode, 0);
    ExecutedNext(isa, m, RET, 0);
    if steps > 1 {
      ConditionalRet(isa, m, opcode, steps - 1);
      ExecutedNext(isa, m, opcode, steps - 1);
      if Holds(Decode(opcode).c, m.cpu) {
        SameFlags(isa, m, RET, steps - 2);
        ExecutedNext(isa, m, RET, steps - 2);
      }
    }
  }
}
