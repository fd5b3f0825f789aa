/** The fetch, execute, halt and interrupt machine, ticked in chunks of any size. */
module CpuRunner {
  import opened Common
  import opened Interrupts
  import opened CpuModel

  datatype Phase = FetchDecode | FetchDecodePrefixed | Execute | ExecutePrefixed | Halted | Interrupting

  /** What happened, in order. */
  datatype Event =
    | Fetched(opcode: byte, prefixed: bool, count: nat)
    | StepRun(opcode: byte, prefixed: bool, step: nat)
    | Completed(opcode: byte, prefixed: bool)
    | Armed
    | Entered(irq: Irq)

  datatype Runner = Runner(
    m: Machine, phase: Phase, cycle: byte, left: nat, opcode: byte,
    irq: Option<Irq>, cancelled: bool,
    stuck: bool, log: seq<Event>)

  const DISPATCH_TICKS := 16

  function Note(r: Runner, e: Event): Runner {
    r.(log := r.log + [e])
  }

  /** The delayed effect of EI. */
  function CountDown(r: Runner, k: nat): Runner {
    var cpu := r.m.cpu;
    if cpu.imeDelay > 0 then
      var delay := cpu.imeDelay - Min(k, cpu.imeDelay);
      r.(m := r.m.(cpu := cpu.(imeDelay := delay, ime := delay == 0)))
    else r
  }

  // ---------------------------------------------------------------- fetch

  function Fetch(r: Runner): Runner {
    r.(opcode := Read(r.m, r.m.cpu.pc), m := r.m.(cpu := r.m.cpu.(pc := Word(r.m.cpu.pc + 1))), cycle := 0)
  }

  function FetchTicks(isa: Isa, r: Runner, k: nat): Runner {
    var s := r.(left := r.left - Min(k, r.left));
    if s.left > 0 then s
    else
      var f := Fetch(s);
      if f.opcode == PREFIX then f.(phase := FetchDecodePrefixed, left := 4)
      else
        var count := Steps(isa, f.m.cpu, f.opcode);
        Note(f.(phase := Execute, left := count * 4), Fetched(f.opcode, false, count))
  }

  function FetchPrefixedTicks(isa: Isa, r: Runner, k: nat): Runner {
    var s := r.(left := r.left - Min(k, r.left));
    if s.left > 0 then s
    else
      var f := Fetch(s);
      var count := isa.stepsPrefixed(f.m.cpu.alu, f.opcode);
      Note(f.(phase := ExecutePrefixed, left := count * 4), Fetched(f.opcode, true, count))
  }

  // ---------------------------------------------------------------- execute

  /** Hand step `step` to the instruction. */
  function RunStep(isa: Isa, r: Runner, step: nat): Runner {
    var prefixed := r.phase == ExecutePrefixed;
    var noted := Note(r, StepRun(r.opcode, prefixed, step));
    var result := if prefixed then isa.execPrefixed(r.m, r.opcode, step) else Exec(isa, r.m, r.opcode, step);
    match result
    case None => noted.(stuck := true)
    case Some(m) =>
      if m.cpu.imeDelay > r.m.cpu.imeDelay then Note(noted.(m := m), Armed) else noted.(m := m)
  }

  /** One tick of execution; every fourth one runs a step. */
  function ExecuteTick(isa: Isa, r: Runner): Runner {
    var s := r.(cycle := Byte(r.cycle + 1), left := if r.left > 0 then r.left - 1 else 0);
    if s.cycle % 4 == 0 && s.cycle > 0 then RunStep(isa, s, s.cycle / 4 - 1) else s
  }

  function ExecuteTicks(isa: Isa, r: Runner, k: nat): Runner {
    if k == 0 then r else ExecuteTick(isa, ExecuteTicks(isa, r, k - 1))
  }

  /** After the last step: halt, or fetch the next opcode in the same tick. */
  function FinishExecute(isa: Isa, r: Runner): Runner {
    if r.left != 0 then r
    else
      var done := Note(r, Completed(r.opcode, r.phase == ExecutePrefixed));
      if r.m.cpu.halted then done.(phase := Halted, left := UNBOUNDED)
      else FetchTicks(isa, done.(phase := FetchDecode, left := 4), 4)
  }

  /** Interrupts are taken only before the first tick of an unprefixed instruction. */
  predicate Interruptible(r: Runner) {
    r.phase == Execute && r.m.cpu.ime && AnyPending(r.m.irqs) && r.cycle == 0
  }

  function EnterInterrupt(r: Runner): Runner
    requires AnyPending(r.m.irqs)
  {
    FirstPendingIsFirst(r.m.irqs);
    Note(r, Entered(FirstPending(r.m.irqs).value)).(
      phase := Interrupting, cycle := 0, left := DISPATCH_TICKS, irq := FirstPending(r.m.irqs))
  }

  // ---------------------------------------------------------------- interrupt

  function RunDispatch(r: Runner, step: nat): Runner
    requires r.irq.Some?
  {
    match Dispatch(r.m, r.cancelled, r.irq.value, step)
    case None => r.(stuck := true)
    case Some(result) => r.(m := result.0, cancelled := result.1)
  }

  function InterruptTick(r: Runner): (s: Runner)
    requires r.irq.Some?
    ensures s.irq == r.irq
  {
    var s := r.(cycle := Byte(r.cycle + 1), left := if r.left > 0 then r.left - 1 else 0);
    if s.cycle % 4 == 0 && s.cycle > 0 then RunDispatch(s, s.cycle / 4 - 1) else s
  }

  function InterruptTicks(r: Runner, k: nat): (s: Runner)
    requires r.irq.Some?
    ensures s.irq == r.irq
  {
    if k == 0 then r else InterruptTick(InterruptTicks(r, k - 1))
  }

  function FinishInterrupt(r: Runner): Runner {
    if r.left == 0 then r.(phase := FetchDecode, left := 4) else r
  }

  // ---------------------------------------------------------------- steps

  /** What the runner relies on to make a step. */
  ghost predicate CanStep(r: Runner) {
    && r.left > 0
    && (r.phase == Interrupting ==> r.irq.Some?)
  }

  /** One step over at most `k` ticks, and the ticks it consumes. */
  function StepAfterCountDown(isa: Isa, r: Runner, k: nat): (Runner, nat)
    requires CanStep(r)
  {
    var n := Min(k, r.left);
    match r.phase
    case FetchDecode => (FetchTicks(isa, r, n), n)
    case FetchDecodePrefixed => (FetchPrefixedTicks(isa, r, n), n)
    case Execute =>
      if Interruptible(r) then (EnterInterrupt(r), 0)
      else (FinishExecute(isa, ExecuteTicks(isa, r, n)), n)
    case ExecutePrefixed => (FinishExecute(isa, ExecuteTicks(isa, r, n)), n)
    case Interrupting => (FinishInterrupt(InterruptTicks(r, n)), n)
    case Halted =>
      if !AnyPending(r.m.irqs) then (r, k)
      else
        var woken := r.(m := r.m.(cpu := r.m.cpu.(halted := false)));
        if r.m.cpu.haltIme then
          var e := EnterInterrupt(woken.(m := woken.m.(cpu := woken.m.cpu.(pc := Word(woken.m.cpu.pc + 1)))));
          FirstPendingIsFirst(r.m.irqs);
          var available := Min(k, DISPATCH_TICKS);
          (FinishInterrupt(InterruptTicks(e, available)), available)
        else (FetchTicks(isa, woken.(phase := FetchDecode, left := 4), 4), Min(k, 4))
  }

  function Step(isa: Isa, r: Runner, k: nat): (Runner, nat)
    requires CanStep(r)
  {
    StepAfterCountDown(isa, CountDown(r, k), k)
  }
}
