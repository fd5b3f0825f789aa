/** The processor's state and the instructions whose timing or effect the runner depends on.
    All other instructions are a parameter: any table of step counts and effects will do. */
module CpuModel {
  import opened Common
  import opened Interrupts
  import opened Decimal

  datatype Cpu = Cpu(
    pc: word, sp: word, alu: Alu, others: seq<byte>,
    ime: bool, imeDelay: nat,
    halted: bool, haltIme: bool,
    cache8: byte, cache16: word)

  datatype Machine = Machine(cpu: Cpu, mem: Memory, irqs: Irqs)

  const PREFIX: byte := 0xCB
  const IME_DELAY := 4

  // ---------------------------------------------------------------- memory

  /** Memory as the processor sees it; the two interrupt registers live in it. */
  function Read(m: Machine, address: word): byte {
    if address == IE_ADDRESS then FlagByte(m.irqs.enabled) + m.irqs.unusedEnable / 32 * 32
    else if address == IF_ADDRESS then FlagByte(m.irqs.requested) + 0xE0
    else m.mem[address]
  }

  function Write(m: Machine, address: word, value: byte): Machine {
    if address == IE_ADDRESS then m.(irqs := m.irqs.(enabled := FlagsOf(value), unusedEnable := value))
    else if address == IF_ADDRESS then m.(irqs := m.irqs.(requested := FlagsOf(value)))
    else m.(mem := m.mem[address := value])
  }

  predicate PlainMemory(address: word) {
    address != IE_ADDRESS && address != IF_ADDRESS
  }

  function High(w: word): byte { w / 0x100 }

  function Low(w: word): byte { w % 0x100 }

  function Joined(low: byte, high: byte): word { high * 0x100 + low }

  function Push(m: Machine, value: byte): Machine {
    var sp := Word(m.cpu.sp - 1);
    Write(m.(cpu := m.cpu.(sp := sp)), sp, value)
  }

  // ---------------------------------------------------------------- instructions

  datatype Condition = IfZ | IfNotZ | IfC | IfNotC

  function Holds(c: Condition, cpu: Cpu): bool {
    match c case IfZ => cpu.alu.z case IfNotZ => !cpu.alu.z case IfC => cpu.alu.c case IfNotC => !cpu.alu.c
  }

  datatype Instruction = Ei | Di | Halt | Ret | Reti | Call | CallIf(c: Condition) | RetIf(c: Condition) | Other

  function Decode(opcode: byte): Instruction {
    match opcode
    case 0xFB => Ei
    case 0xF3 => Di
    case 0x76 => Halt
    case 0xC9 => Ret
    case 0xD9 => Reti
    case 0xCD => Call
    case 0xC4 => CallIf(IfNotZ)
    case 0xCC => CallIf(IfZ)
    case 0xD4 => CallIf(IfNotC)
    case 0xDC => CallIf(IfC)
    case 0xC0 => RetIf(IfNotZ)
    case 0xC8 => RetIf(IfZ)
    case 0xD0 => RetIf(IfNotC)
    case 0xD8 => RetIf(IfC)
    case _ => Other
  }

  /** Step counts and effects of the rest of the instruction set. A count may depend on the flags; a
      step the table has no case for is None. */
  datatype Isa = Isa(
    steps: (Alu, byte) -> nat,
    exec: (Machine, byte, nat) -> Option<Machine>,
    stepsPrefixed: (Alu, byte) -> nat,
    execPrefixed: (Machine, byte, nat) -> Option<Machine>)

  ghost predicate SameControl(a: Cpu, b: Cpu) {
    a.ime == b.ime && a.imeDelay == b.imeDelay && a.halted == b.halted && a.haltIme == b.haltIme
  }

  /** What one step of an instruction outside the ones below may do: it leaves the interrupt master
      enable and the halt state alone, and the count by which it was fetched. */
  ghost predicate StepLegal(steps: (Alu, byte) -> nat, exec: (Machine, byte, nat) -> Option<Machine>,
                            m: Machine, op: byte, step: nat) {
    var after := exec(m, op, step);
    after.Some? && SameControl(after.value.cpu, m.cpu) && steps(after.value.cpu.alu, op) == steps(m.cpu.alu, op)
  }

  /** Between one and six steps each, and a case for every step below the count. Nothing is said of
      steps from the count on. */
  ghost predicate Legal(isa: Isa) {
    && (forall alu, op :: 1 <= isa.steps(alu, op) <= 6)
    && (forall alu, op :: 1 <= isa.stepsPrefixed(alu, op) <= 6)
    && (forall m: Machine, op: byte, step: nat :: step < isa.steps(m.cpu.alu, op) ==>
      StepLegal(isa.steps, isa.exec, m, op, step))
    && (forall m: Machine, op: byte, step: nat :: step < isa.stepsPrefixed(m.cpu.alu, op) ==>
          StepLegal(isa.stepsPrefixed, isa.execPrefixed, m, op, step))
  }

  /** The number of steps, decided when the opcode is fetched. */
  function Steps(isa: Isa, cpu: Cpu, opcode: byte): nat {
    match Decode(opcode)
    case Ei => 1
    case Di => 1
    case Halt => 1
    case Ret => 4
    case Reti => 4
    case Call => 6
    case CallIf(c) => if Holds(c, cpu) then 6 else 3
    case RetIf(c) => if Holds(c, cpu) then 5 else 2
    case Other => isa.steps(cpu.alu, opcode)
  }

  function ExecCall(m: Machine, step: nat): Option<Machine> {
    var cpu := m.cpu;
    match step
    case 0 => Some(m)
    case 1 => Some(m.(cpu := cpu.(cache8 := Read(m, cpu.pc), pc := Word(cpu.pc + 1))))
    case 2 => Some(m.(cpu := cpu.(cache16 := Joined(cpu.cache8, Read(m, cpu.pc)), pc := Word(cpu.pc + 1))))
    case 3 => Some(m)
    case 4 => Some(Push(m, High(cpu.pc)))
    case 5 =>
      var pushed := Push(m, Low(cpu.pc));
      Some(pushed.(cpu := pushed.cpu.(pc := pushed.cpu.cache16)))
    case _ => None
  }

  function ExecRet(m: Machine, step: nat): Option<Machine> {
    var cpu := m.cpu;
    match step
    case 0 => Some(m)
    case 1 => Some(m.(cpu := cpu.(cache8 := Read(m, cpu.sp), sp := Word(cpu.sp + 1))))
    case 2 => Some(m.(cpu := cpu.(cache16 := Joined(cpu.cache8, Read(m, cpu.sp)), sp := Word(cpu.sp + 1))))
    case 3 => Some(m.(cpu := cpu.(pc := cpu.cache16)))
    case _ => None
  }

  function ExecReti(m: Machine, step: nat): Option<Machine> {
    var cpu := m.cpu;
    match step
    case 0 => Some(m.(cpu := cpu.(ime := true, imeDelay := 0)))
    case 1 => Some(m.(cpu := cpu.(cache8 := Read(m, cpu.sp), sp := Word(cpu.sp + 1))))
    case 2 => Some(m.(cpu := cpu.(pc := Joined(cpu.cache8, Read(m, cpu.sp)), sp := Word(cpu.sp + 1))))
    case 3 => Some(m)
    case _ => None
  }

  /** One step of an instruction; None where the program's switch has no case. */
  function Exec(isa: Isa, m: Machine, opcode: byte, step: nat): Option<Machine> {
    var cpu := m.cpu;
    match Decode(opcode)
    case Ei => Some(if !cpu.ime && cpu.imeDelay == 0 then m.(cpu := cpu.(imeDelay := IME_DELAY)) else m)
    case Di => Some(m.(cpu := cpu.(ime := false, imeDelay := 0)))
    case Halt => Some(m.(cpu := cpu.(halted := true, haltIme := cpu.ime)))
    case Ret => ExecRet(m, step)
    case Reti => ExecReti(m, step)
    case Call => ExecCall(m, step)
    case CallIf(c) =>
      if Holds(c, cpu) then ExecCall(m, step)
      else Some(if step == 2 then m.(cpu := cpu.(pc := Word(cpu.pc + 2))) else m)
    case RetIf(c) =>
      if !Holds(c, cpu) || step == 0 then Some(m)
      else ExecRet(m, step - 1)
    case Other => isa.exec(m, opcode, step)
  }

  // ---------------------------------------------------------------- interrupt dispatch

  const DISPATCH_STEPS := 4

  /** One step of entering a handler; `cancelled` is remembered between steps. */
  function Dispatch(m: Machine, cancelled: bool, request: Irq, step: nat): Option<(Machine, bool)> {
    var cpu := m.cpu;
    match step
    case 0 => Some((m.(cpu := cpu.(ime := false, imeDelay := 0, pc := Word(cpu.pc - 1))), false))
    case 1 =>
      var pushed := Push(m, High(cpu.pc));
      Some((pushed, request !in pushed.irqs.enabled))
    case 2 => Some((Push(m, Low(cpu.pc)), cancelled))
    case 3 =>
      var effective := if cancelled then FirstPending(m.irqs) else Some(request);
      Some((match effective
            case Some(i) => m.(cpu := cpu.(pc := Handler(i)), irqs := m.irqs.(requested := m.irqs.requested - {i}))
            case None => m.(cpu := cpu.(pc := 0)), cancelled))
    case _ => None
  }
}
