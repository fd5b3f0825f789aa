/** What every step of the runner keeps, and what follows: ticking always ends, and no
    instruction is ever handed a step it has no case for. */
module CpuInvariant {
  import opened Common
  import opened Interrupts
  import opened CpuModel
  import opened CpuRunner

  const MAX_STEPS := 6

  /** The enable is never both on and waiting to be, nor is it waiting in a halt that began with it on. */
  ghost predicate ImeOk(cpu: Cpu) {
    (cpu.ime || (cpu.halted && cpu.haltIme) ==> cpu.imeDelay == 0) && cpu.imeDelay <= IME_DELAY
  }

  /** The count of the instruction being run, by the flags as they are now. */
  ghost function Count(isa: Isa, r: Runner): nat {
    if r.phase == ExecutePrefixed then isa.stepsPrefixed(r.m.cpu.alu, r.opcode) else Steps(isa, r.m.cpu, r.opcode)
  }

  /** An instruction part-way through: ticks done and ticks left make up its steps, which are still
      the ones the flags call for. */
  ghost predicate Running(isa: Isa, r: Runner) {
    && (r.phase == Execute || r.phase == ExecutePrefixed)
    && r.cycle + r.left == 4 * Count(isa, r) <= 4 * MAX_STEPS
    && (r.m.cpu.halted ==> r.left == 0)
    && ImeOk(r.m.cpu) && !r.stuck
  }

  ghost predicate Inv(isa: Isa, r: Runner) {
    && Legal(isa) && ImeOk(r.m.cpu) && !r.stuck && r.left > 0
    && (r.m.cpu.halted <==> r.phase == Halted)
    && match r.phase
       case FetchDecode => r.left <= 4
       case FetchDecodePrefixed => r.left <= 4
       case Execute => Running(isa, r)
       case ExecutePrefixed => Running(isa, r)
       case Interrupting => r.cycle + r.left == DISPATCH_TICKS && r.irq.Some?
       case Halted => r.left == UNBOUNDED
  }

  lemma NotHalted(isa: Isa, r: Runner)
    requires Inv(isa, r) && r.phase == Execute
    ensures !r.m.cpu.halted
  {
    hide Running, Legal;
  }

  // ---------------------------------------------------------------- instructions

  lemma PushKeeps(m: Machine, value: byte)
    ensures Push(m, value).cpu == m.cpu.(sp := Push(m, value).cpu.sp)
  {
  }

  /** A step within the count decided at fetch has a case, keeps the count, and leaves the
      interrupt and halt state consistent. */
  lemma ExecDefined(isa: Isa, m: Machine, opcode: byte, step: nat)
    requires Legal(isa) && ImeOk(m.cpu) && !m.cpu.halted && step < Steps(isa, m.cpu, opcode)
    ensures var result := Exec(isa, m, opcode, step);
      && result.Some? && ImeOk(result.value.cpu)
      && Steps(isa, result.value.cpu, opcode) == Steps(isa, m.cpu, opcode)
      && (result.value.cpu.halted ==> Decode(opcode) == Instruction.Halt)
      && (result.value.cpu.imeDelay > m.cpu.imeDelay ==> Decode(opcode) == Ei && !m.cpu.ime && m.cpu.imeDelay == 0)
  {
    hide Read, Write;
    assert Decode(opcode) == Other ==> StepLegal(isa.steps, isa.exec, m, opcode, step);
    PushKeeps(m, High(m.cpu.pc));
    PushKeeps(m, Low(m.cpu.pc));
  }

  lemma PrefixedDefined(isa: Isa, m: Machine, opcode: byte, step: nat)
    requires Legal(isa) && step < isa.stepsPrefixed(m.cpu.alu, opcode)
    ensures var result := isa.execPrefixed(m, opcode, step);
      && result.Some? && SameControl(result.value.cpu, m.cpu)
      && isa.stepsPrefixed(result.value.cpu.alu, opcode) == isa.stepsPrefixed(m.cpu.alu, opcode)
  {
    assert StepLegal(isa.stepsPrefixed, isa.execPrefixed, m, opcode, step);
  }

  lemma StepBelowCount(isa: Isa, r: Runner)
    requires Running(isa, r) && r.cycle > 0 && r.cycle % 4 == 0
    ensures r.cycle / 4 - 1 < Count(isa, r)
  {
    hide Count;
  }

  lemma RunStepKeeps(isa: Isa, r: Runner)
    requires Legal(isa) && Running(isa, r) && r.cycle > 0 && r.cycle % 4 == 0 && !r.m.cpu.halted
    ensures var s := RunStep(isa, r, r.cycle / 4 - 1);
      && Running(isa, s)
      && s == r.(m := s.m, log := s.log)
  {
    var step := r.cycle / 4 - 1;
    StepBelowCount(isa, r);
    hide Exec, Decode, Steps, Legal;
    if r.phase == Execute {
      ExecDefined(isa, r.m, r.opcode, step);
      OneStepHalt(isa, r.m.cpu, r.opcode);
    } else {
      PrefixedDefined(isa, r.m, r.opcode, step);
    }
  }

  lemma OneStepHalt(isa: Isa, cpu: Cpu, opcode: byte)
    ensures Decode(opcode) == Instruction.Halt ==> Steps(isa, cpu, opcode) == 1
  {
  }

  // ---------------------------------------------------------------- ticks inside a state

  /** The state in which the tick's step, if one is due, is run. */
  lemma TickCounted(isa: Isa, r: Runner) returns (s: Runner)
    requires Legal(isa) && Running(isa, r) && r.left > 0
    ensures s == r.(cycle := s.cycle, left := s.left) && s.cycle == r.cycle + 1 && s.left == r.left - 1
    ensures Running(isa, s) && !s.m.cpu.halted
    ensures ExecuteTick(isa, r) == if s.cycle % 4 == 0 then RunStep(isa, s, s.cycle / 4 - 1) else s
  {
    s := r.(cycle := Byte(r.cycle + 1), left := r.left - 1);
    hide RunStep, Legal, Decode, Steps;
  }

  lemma ExecuteTickKeeps(isa: Isa, r: Runner)
    requires Legal(isa) && Running(isa, r) && r.left > 0
    ensures var s := ExecuteTick(isa, r);
      && Running(isa, s) && s.cycle == r.cycle + 1 && s.left == r.left - 1
      && s == r.(m := s.m, cycle := s.cycle, left := s.left, log := s.log)
  {
    hide *;
    var s := TickCounted(isa, r);
    if s.cycle % 4 == 0 {
      RunStepKeeps(isa, s);
    }
  }

  lemma {:induction false} ExecuteTicksKeep(isa: Isa, r: Runner, k: nat)
    requires Legal(isa) && Running(isa, r) && k <= r.left
    ensures var s := ExecuteTicks(isa, r, k);
      && Running(isa, s) && s.cycle == r.cycle + k && s.left == r.left - k
      && s == r.(m := s.m, cycle := s.cycle, left := s.left, log := s.log)
  {
    hide ExecuteTick, Running, Legal;
    if k > 0 {
      ExecuteTicksKeep(isa, r, k - 1);
      ExecuteTickKeeps(isa, ExecuteTicks(isa, r, k - 1));
    }
  }

  lemma StepsInRange(isa: Isa, cpu: Cpu, opcode: byte)
    requires Legal(isa)
    ensures 1 <= Steps(isa, cpu, opcode) <= MAX_STEPS
  {
  }

  lemma FetchKeeps(isa: Isa, r: Runner, k: nat)
    requires Legal(isa) && ImeOk(r.m.cpu) && !r.stuck && !r.m.cpu.halted
    requires r.phase == FetchDecode && 1 <= r.left <= 4 && 1 <= k <= 4
    ensures Inv(isa, FetchTicks(isa, r, k))
  {
    var f := Fetch(r.(left := r.left - Min(k, r.left)));
    StepsInRange(isa, f.m.cpu, f.opcode);
    hide Decode, Steps, Legal;
  }

  lemma FetchPrefixedKeeps(isa: Isa, r: Runner, k: nat)
    requires Inv(isa, r) && r.phase == FetchDecodePrefixed && 1 <= k
    ensures Inv(isa, FetchPrefixedTicks(isa, r, k))
  {
    hide Decode, Steps;
    var f := Fetch(r.(left := r.left - Min(k, r.left)));
    assert 1 <= isa.stepsPrefixed(f.m.cpu.alu, f.opcode) <= MAX_STEPS;
    hide Legal;
  }

  lemma FinishExecuteKeeps(isa: Isa, r: Runner)
    requires Legal(isa) && Running(isa, r)
    ensures Inv(isa, FinishExecute(isa, r))
  {
    hide Decode, Steps, Legal, FetchTicks;
    if r.left == 0 && !r.m.cpu.halted {
      var done := Note(r, Completed(r.opcode, r.phase == ExecutePrefixed));
      FetchKeeps(isa, done.(phase := FetchDecode, left := 4), 4);
    }
  }

  lemma ExecuteKeeps(isa: Isa, r: Runner, k: nat)
    requires Inv(isa, r) && (r.phase == Execute || r.phase == ExecutePrefixed) && 1 <= k <= r.left
    ensures Inv(isa, FinishExecute(isa, ExecuteTicks(isa, r, k)))
  {
    ExecuteTicksKeep(isa, r, k);
    hide Running, Legal, ExecuteTicks, FinishExecute;
    FinishExecuteKeeps(isa, ExecuteTicks(isa, r, k));
  }

  lemma InterruptTickKeeps(r: Runner)
    requires ImeOk(r.m.cpu) && !r.stuck && !r.m.cpu.halted && r.irq.Some?
    requires r.cycle + r.left == DISPATCH_TICKS && r.left > 0
    ensures var s := InterruptTick(r);
      && ImeOk(s.m.cpu) && !s.stuck && !s.m.cpu.halted
      && s.cycle == r.cycle + 1 && s.left == r.left - 1
      && s == r.(m := s.m, cycle := s.cycle, left := s.left, cancelled := s.cancelled)
  {
    PushKeeps(r.m, High(r.m.cpu.pc));
    PushKeeps(r.m, Low(r.m.cpu.pc));
    hide Push, FirstPending;
  }

  lemma {:induction false} InterruptTicksKeep(r: Runner, k: nat)
    requires ImeOk(r.m.cpu) && !r.stuck && !r.m.cpu.halted && r.irq.Some?
    requires r.cycle + r.left == DISPATCH_TICKS && k <= r.left
    ensures var s := InterruptTicks(r, k);
      && ImeOk(s.m.cpu) && !s.stuck && !s.m.cpu.halted
      && s.cycle == r.cycle + k && s.left == r.left - k
      && s == r.(m := s.m, cycle := s.cycle, left := s.left, cancelled := s.cancelled)
  {
    hide InterruptTick, ImeOk;
    if k > 0 {
      InterruptTicksKeep(r, k - 1);
      InterruptTickKeeps(InterruptTicks(r, k - 1));
    }
  }

  lemma InterruptKeeps(isa: Isa, r: Runner, k: nat)
    requires Legal(isa) && ImeOk(r.m.cpu) && !r.stuck && !r.m.cpu.halted && r.irq.Some? && r.phase == Interrupting
    requires r.cycle + r.left == DISPATCH_TICKS && 1 <= k <= r.left
    ensures Inv(isa, FinishInterrupt(InterruptTicks(r, k)))
  {
    hide InterruptTicks, Legal, Running;
    InterruptTicksKeep(r, k);
  }

  // ---------------------------------------------------------------- steps

  lemma CountDownKeeps(isa: Isa, r: Runner, k: nat)
    requires Inv(isa, r)
    ensures var s := CountDown(r, k);
      && Inv(isa, s) && s.phase == r.phase && s.left == r.left && s.log == r.log
  {
    CountDownKeepsFlags(isa, r, k);
    hide Legal, Decode, Steps;
  }

  lemma CountDownKeepsFlags(isa: Isa, r: Runner, k: nat)
    ensures Count(isa, CountDown(r, k)) == Count(isa, r)
  {
  }

  lemma HaltedKeeps(isa: Isa, r: Runner, k: nat)
    requires Inv(isa, r) && r.phase == Halted && 1 <= k
    ensures CanStep(r) && Inv(isa, StepAfterCountDown(isa, r, k).0)
  {
    hide FetchTicks, InterruptTicks, Legal, Running;
    if AnyPending(r.m.irqs) {
      FirstPendingIsFirst(r.m.irqs);
      hide AnyPending, FirstPending;
      var woken := r.(m := r.m.(cpu := r.m.cpu.(halted := false)));
      if r.m.cpu.haltIme {
        var e := EnterInterrupt(woken.(m := woken.m.(cpu := woken.m.cpu.(pc := Word(woken.m.cpu.pc + 1)))));
        InterruptKeeps(isa, e, Min(k, DISPATCH_TICKS));
      } else {
        FetchKeeps(isa, woken.(phase := FetchDecode, left := 4), 4);
      }
    }
  }

  /** A step of any size keeps the invariant and consumes at least one tick, except for the one
      step that turns an instruction about to start into an interrupt. */
  lemma StepKeeps(isa: Isa, r: Runner, k: nat)
    requires Inv(isa, r) && 1 <= k
    ensures CanStep(r)
    ensures var (s, consumed) := Step(isa, r, k);
      && Inv(isa, s) && consumed <= k
      && (consumed == 0 ==> r.phase == Execute && s.phase == Interrupting)
  {
    CountDownKeeps(isa, r, k);
    var c := CountDown(r, k);
    hide CountDown;
    match c.phase {
      case FetchDecode => hide Running, Legal; FetchKeeps(isa, c, Min(k, c.left));
      case FetchDecodePrefixed => hide Running, Legal; FetchPrefixedKeeps(isa, c, Min(k, c.left));
      case Execute => EnterKeeps(isa, c); ExecuteKeeps(isa, c, Min(k, c.left));
      case ExecutePrefixed => ExecuteKeeps(isa, c, Min(k, c.left));
      case Interrupting => hide Running, Legal; InterruptKeeps(isa, c, Min(k, c.left));
      case Halted => HaltedKeeps(isa, c, k);
    }
    hide Running, Legal, FinishExecute, FinishInterrupt, InterruptTicks, ExecuteTicks, FetchTicks, FetchPrefixedTicks;
  }

  lemma EnterKeeps(isa: Isa, r: Runner)
    requires Inv(isa, r) && r.phase == Execute
    ensures Interruptible(r) ==> Inv(isa, EnterInterrupt(r))
  {
    hide Legal, Running;
    FirstPendingIsFirst(r.m.irqs);
  }

  // ---------------------------------------------------------------- runs

  /** Exactly `n` ticks, however many steps they take: the step that consumes none is always
      followed by one that does. */
  ghost function Tick(isa: Isa, r: Runner, n: nat): (s: Runner)
    requires Inv(isa, r)
    ensures Inv(isa, s)
    decreases n, if r.phase == Execute then 1 else 0
  {
    if n == 0 then r
    else
      StepKeeps(isa, r, n);
      var (s, consumed) := Step(isa, r, n);
      Tick(isa, s, n - consumed)
  }

  lemma TickUnfolds(isa: Isa, r: Runner, n: nat) returns (s: Runner, consumed: nat)
    requires Inv(isa, r) && 1 <= n
    ensures CanStep(r) && (s, consumed) == Step(isa, r, n) && Inv(isa, s) && consumed <= n
    ensures consumed == 0 ==> r.phase == Execute && s.phase == Interrupting
    ensures Tick(isa, r, n) == Tick(isa, s, n - consumed)
  {
    hide Inv, Step, CanStep;
    StepKeeps(isa, r, n);
    var result := Step(isa, r, n);
    s, consumed := result.0, result.1;
  }

  /** What the other components may do between two calls: any memory, any interrupt requests. */
  datatype Input = Input(mem: Memory, irqs: Irqs, ticks: nat)

  ghost function RunOne(isa: Isa, r: Runner, i: Input): (s: Runner)
    requires Inv(isa, r)
    ensures Inv(isa, s)
  {
    SurroundingsKeep(isa, r, i.mem, i.irqs);
    Tick(isa, r.(m := r.m.(mem := i.mem, irqs := i.irqs)), i.ticks)
  }

  lemma SurroundingsKeep(isa: Isa, r: Runner, mem: Memory, irqs: Irqs)
    requires Inv(isa, r)
    ensures Inv(isa, r.(m := r.m.(mem := mem, irqs := irqs)))
  {
    hide Legal, Decode, Steps;
  }

  ghost function Run(isa: Isa, r: Runner, inputs: seq<Input>): (s: Runner)
    requires Inv(isa, r)
    ensures Inv(isa, s)
  {
    if inputs == [] then r else RunOne(isa, Run(isa, r, inputs[..|inputs| - 1]), inputs[|inputs| - 1])
  }

  /** As the machine is switched on. */
  ghost predicate Reset(r: Runner) {
    && r.phase == FetchDecode && r.left == 4 && r.cycle == 0
    && !r.m.cpu.ime && r.m.cpu.imeDelay == 0 && !r.m.cpu.halted
    && !r.stuck && r.log == []
  }

  /** For every program, every chunking of ticks and everything the other components do: no
      instruction and no dispatch is ever handed a step it has no case for, and the runner
      always has a positive batch to announce. */
  lemma NeverStuck(isa: Isa, r: Runner, inputs: seq<Input>)
    requires Legal(isa) && Reset(r)
    ensures Inv(isa, r)
    ensures var s := Run(isa, r, inputs); !s.stuck && s.left >= 1
  {
    hide Run;
  }
}
