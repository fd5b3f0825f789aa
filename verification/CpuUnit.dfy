/** The processor's runner as the program has it: fields updated in place and ticks handled in
    chunks that end at machine-cycle boundaries. Every method is tied to the state machine. */
module CpuUnit {
  import opened Common
  import opened Interrupts
  import opened CpuModel
  import opened CpuRunner
  import opened CpuInvariant
  import opened CpuChunks

  /** Execution does not look at the ticks left, so counting them down before or after is the same. */
  lemma LeftUnread(isa: Isa, r: Runner, left: nat, step: nat)
    ensures RunStep(isa, r.(left := left), step) == RunStep(isa, r, step).(left := left)
  {
    hide Exec;
  }

  lemma LeftUnreadByDispatch(r: Runner, left: nat, step: nat)
    requires r.irq.Some?
    ensures RunDispatch(r.(left := left), step) == RunDispatch(r, step).(left := left)
  {
    hide Dispatch;
  }

  /** A chunk that does not run past the end of the machine cycle. */
  predicate WithinCycle(cycle: nat, chunk: nat) {
    1 <= chunk && cycle % 4 + chunk <= 4
  }

  lemma RunningBounds(isa: Isa, r: Runner)
    requires Running(isa, r)
    ensures r.cycle + r.left <= 4 * MAX_STEPS && (r.phase == Execute || r.phase == ExecutePrefixed)
  {
    hide Decode, Steps;
  }

  /** Execution part-way through a call: `done` of its `n` ticks made, all of them counted down. */
  ghost function Underway(isa: Isa, start: Runner, n: nat, done: nat): Runner
    requires n <= start.left
  {
    ExecuteTicks(isa, start, done).(left := start.left - n)
  }

  function RunChunk(isa: Isa, r: Runner, chunk: nat): Runner
    requires r.cycle + chunk < 0x100
  {
    var t := r.(cycle := r.cycle + chunk);
    if t.cycle % 4 == 0 && t.cycle > 0 then RunStep(isa, t, t.cycle / 4 - 1) else t
  }

  lemma ChunkAt(isa: Isa, start: Runner, n: nat, done: nat, chunk: nat)
    requires Legal(isa) && Running(isa, start) && done + chunk <= n <= start.left
    requires WithinCycle(start.cycle + done, chunk)
    ensures 1 <= chunk && start.cycle + done + chunk < 0x80 && Underway(isa, start, n, done).cycle == start.cycle + done
    ensures Underway(isa, start, n, done + chunk).phase == start.phase
    ensures Underway(isa, start, n, done + chunk).cycle == start.cycle + done + chunk
    ensures Underway(isa, start, n, done + chunk) == RunChunk(isa, Underway(isa, start, n, done), chunk)
  {
    hide ExecuteTicks, Running, RunStep, Legal;
    var s := ExecuteTicks(isa, start, done);
    ExecuteTicksKeep(isa, start, done);
    ExecuteTicksKeep(isa, start, done + chunk);
    RunningBounds(isa, s);
    ChunkExecutes(isa, s, chunk);
    ExecuteTicksSplit(isa, start, done, chunk);
    var t := s.(left := start.left - n, cycle := s.cycle + chunk);
    assert Later(s, chunk) == t.(left := s.left - chunk);
    if t.cycle % 4 == 0 {
      LeftUnread(isa, Later(s, chunk), start.left - n, t.cycle / 4 - 1);
    }
  }

  lemma UnderwayEnds(isa: Isa, start: Runner, n: nat)
    requires Legal(isa) && Running(isa, start) && n <= start.left
    ensures Underway(isa, start, n, 0) == start.(left := start.left - n)
    ensures Underway(isa, start, n, n) == ExecuteTicks(isa, start, n)
    ensures ExecuteTicks(isa, start, n).phase == start.phase
  {
    ExecuteTicksKeep(isa, start, n);
    ExecuteTicksNext(isa, start, 0);
    hide ExecuteTicks, Running, Legal;
  }

  /** Dispatch part-way through a call. */
  ghost function DispatchUnderway(start: Runner, n: nat, done: nat): Runner
    requires start.irq.Some? && n <= start.left
  {
    InterruptTicks(start, done).(left := start.left - n)
  }

  function DispatchChunk(r: Runner, chunk: nat): Runner
    requires r.cycle + chunk < 0x100 && r.irq.Some?
  {
    var t := r.(cycle := r.cycle + chunk);
    if t.cycle % 4 == 0 && t.cycle > 0 then RunDispatch(t, t.cycle / 4 - 1) else t
  }

  /** A dispatch with its ticks done and ticks left adding up. */
  ghost predicate Dispatching(r: Runner) {
    ImeOk(r.m.cpu) && !r.stuck && !r.m.cpu.halted && r.irq.Some? && r.cycle + r.left == DISPATCH_TICKS
  }

  lemma DispatchBounds(start: Runner, done: nat)
    requires Dispatching(start) && done <= start.left
    ensures var s := InterruptTicks(start, done);
      s.cycle == start.cycle + done <= DISPATCH_TICKS && s.left == start.left - done && s.irq == start.irq
        && s.irq.Some?
  {
    InterruptTicksKeep(start, done);
    hide InterruptTicks, ImeOk;
  }

  lemma DispatchChunkAt(start: Runner, n: nat, done: nat, chunk: nat)
    requires Dispatching(start) && start.irq.Some? && done + chunk <= n <= start.left
    requires WithinCycle(start.cycle + done, chunk)
    ensures 1 <= chunk && start.cycle + done + chunk < 0x80
    ensures DispatchUnderway(start, n, done).cycle == start.cycle + done
    ensures DispatchUnderway(start, n, done).irq == start.irq
    ensures DispatchUnderway(start, n, done + chunk).cycle == start.cycle + done + chunk
    ensures DispatchUnderway(start, n, done + chunk) == DispatchChunk(DispatchUnderway(start, n, done), chunk)
  {
    hide InterruptTicks, RunDispatch, Dispatching;
    DispatchBounds(start, done);
    DispatchBounds(start, done + chunk);
    var s := InterruptTicks(start, done);
    ChunkDispatches(s, chunk);
    InterruptTicksSplit(start, done, chunk);
    var t := s.(left := start.left - n, cycle := s.cycle + chunk);
    assert Later(s, chunk) == t.(left := s.left - chunk);
    if t.cycle % 4 == 0 {
      LeftUnreadByDispatch(Later(s, chunk), start.left - n, t.cycle / 4 - 1);
    }
  }

  lemma DispatchUnderwayEnds(start: Runner, n: nat)
    requires start.irq.Some? && Dispatching(start) && n <= start.left
    ensures DispatchUnderway(start, n, 0) == start.(left := start.left - n)
    ensures DispatchUnderway(start, n, n) == InterruptTicks(start, n)
  {
    InterruptTicksKeep(start, n);
    InterruptTicksNext(start, 0);
    hide InterruptTicks, ImeOk;
  }

  class RunnerUnit {
    const isa: Isa

    var machine: Machine
    var currentState: Phase
    var currentExecutionCycle: byte
    var remainingCyclesInState: nat
    var currentOpcode: byte
    var currentInterrupt: Option<Irq>
    var interruptCancelled: bool

    ghost var stuck: bool
    ghost var events: seq<Event>

    ghost function State(): Runner
      reads this
    {
      Runner(machine, currentState, currentExecutionCycle, remainingCyclesInState, currentOpcode,
             currentInterrupt, interruptCancelled, stuck, events)
    }

    constructor (isa: Isa, machine: Machine)
      ensures this.isa == isa && this.machine == machine
      ensures !machine.cpu.ime && machine.cpu.imeDelay == 0 && !machine.cpu.halted ==> Reset(State())
    {
      this.isa, this.machine := isa, machine;
      currentState, currentExecutionCycle, remainingCyclesInState := FetchDecode, 0, 4;
      currentOpcode, currentInterrupt, interruptCancelled := 0, None, false;
      stuck, events := false, [];
    }

    method ReadAtPc() returns (value: byte)
      modifies this`machine
      ensures value == Read(old(machine), old(machine).cpu.pc)
      ensures machine == old(machine).(cpu := old(machine).cpu.(pc := Word(old(machine).cpu.pc + 1)))
    {
      value := Read(machine, machine.cpu.pc);
      machine := machine.(cpu := machine.cpu.(pc := Word(machine.cpu.pc + 1)));
    }

    method HandleFetchDecode(numTicks: nat) returns (consumed: nat)
      modifies this
      ensures State() == FetchTicks(isa, old(State()), numTicks)
        && consumed == Min(numTicks, old(remainingCyclesInState))
    {
      consumed := Min(numTicks, remainingCyclesInState);
      remainingCyclesInState := remainingCyclesInState - consumed;
      if remainingCyclesInState == 0 {
        currentOpcode := ReadAtPc();
        var prefixMode := currentOpcode == PREFIX;
        var count := if prefixMode then 1 else Steps(isa, machine.cpu, currentOpcode);
        currentState := if prefixMode then FetchDecodePrefixed else Execute;
        remainingCyclesInState := count * 4;
        currentExecutionCycle := 0;
        if !prefixMode {
          events := events + [Fetched(currentOpcode, false, count)];
        }
      }
    }

    method HandleFetchDecodePrefixed(numTicks: nat) returns (consumed: nat)
      modifies this
      ensures State() == FetchPrefixedTicks(isa, old(State()), numTicks)
      ensures consumed == Min(numTicks, old(remainingCyclesInState))
    {
      consumed := Min(numTicks, remainingCyclesInState);
      remainingCyclesInState := remainingCyclesInState - consumed;
      if remainingCyclesInState == 0 {
        currentOpcode := ReadAtPc();
        currentState := ExecutePrefixed;
        var count := isa.stepsPrefixed(machine.cpu.alu, currentOpcode);
        remainingCyclesInState := count * 4;
        currentExecutionCycle := 0;
        events := events + [Fetched(currentOpcode, true, count)];
      }
    }

    /** Hand one step to the instruction. */
    method RunInstruction(step: nat, prefixed: bool)
      requires prefixed <==> currentState == ExecutePrefixed
      modifies this`machine, this`stuck, this`events
      ensures State() == RunStep(isa, old(State()), step)
    {
      var before := machine;
      var result := if prefixed then isa.execPrefixed(machine, currentOpcode, step)
                    else Exec(isa, machine, currentOpcode, step);
      match result {
        case Some(after) => machine := after;
        case None => stuck := true;
      }
      events := events + [StepRun(currentOpcode, prefixed, step)];
      if machine.cpu.imeDelay > before.cpu.imeDelay {
        events := events + [Armed];
      }
    }

    method EnterPendingInterrupt()
      requires AnyPending(machine.irqs)
      modifies this
      ensures State() == EnterInterrupt(old(State()))
    {
      FirstPendingIsFirst(machine.irqs);
      currentState, currentExecutionCycle, remainingCyclesInState := Interrupting, 0, DISPATCH_STEPS * 4;
      currentInterrupt := FirstPending(machine.irqs);
      events := events + [Entered(currentInterrupt.value)];
    }

    method NextChunk(ticksLeft: nat) returns (chunk: nat)
      requires ticksLeft > 0
      ensures chunk <= ticksLeft && WithinCycle(currentExecutionCycle, chunk)
      ensures chunk < ticksLeft ==> (currentExecutionCycle + chunk) % 4 == 0
    {
      var nextBoundary := (currentExecutionCycle / 4 + 1) * 4;
      var ticksToBoundary := nextBoundary - currentExecutionCycle;
      chunk := Min(ticksLeft, ticksToBoundary);
    }

    /** `done` of a call's `n` ticks made since `start`. */
    ghost predicate Made(start: Runner, n: nat, done: nat)
      reads this
    {
      && Legal(isa) && Running(isa, start) && done <= n <= start.left
      && State() == Underway(isa, start, n, done)
      && currentState == start.phase && currentExecutionCycle == start.cycle + done
    }

    method ExecuteChunk(ticksLeft: nat, prefixed: bool, ghost start: Runner, ghost n: nat) returns (chunk: nat)
      requires 0 < ticksLeft <= n && Made(start, n, n - ticksLeft)
      requires prefixed <==> start.phase == ExecutePrefixed
      modifies this
      ensures 1 <= chunk <= ticksLeft && Made(start, n, n - ticksLeft + chunk)
    {
      hide Underway, RunStep, ExecuteTicks, Running, Legal, WithinCycle;
      chunk := NextChunk(ticksLeft);
      ChunkAt(isa, start, n, n - ticksLeft, chunk);
      currentExecutionCycle := currentExecutionCycle + chunk;
      if currentExecutionCycle % 4 == 0 {
        RunInstruction(currentExecutionCycle / 4 - 1, prefixed);
      }
    }

    /** The chunk loop of an instruction. */
    method ExecuteChunks(numTicks: nat, prefixed: bool)
      requires Legal(isa) && Running(isa, State()) && numTicks <= remainingCyclesInState
      requires prefixed <==> currentState == ExecutePrefixed
      modifies this
      ensures State() == ExecuteTicks(isa, old(State()), numTicks)
    {
      ghost var start := State();
      UnderwayEnds(isa, start, numTicks);
      hide Underway, Running, Legal, ExecuteTicks;
      remainingCyclesInState := remainingCyclesInState - numTicks;
      var ticksLeft := numTicks;
      while ticksLeft > 0
        invariant 0 <= ticksLeft <= numTicks && Made(start, numTicks, numTicks - ticksLeft)
      {
        var chunk := ExecuteChunk(ticksLeft, prefixed, start, numTicks);
        ticksLeft := ticksLeft - chunk;
      }
    }

    method HandleExecute(numTicks: nat, prefixed: bool) returns (consumed: nat)
      requires Legal(isa) && Running(isa, State()) && 1 <= numTicks && remainingCyclesInState > 0
      requires prefixed <==> currentState == ExecutePrefixed
      modifies this
      ensures (State(), consumed) ==
        if Interruptible(old(State())) then (EnterInterrupt(old(State())), 0)
        else
          var n := Min(numTicks, old(remainingCyclesInState));
          (FinishExecute(isa, ExecuteTicks(isa, old(State()), n)), n)
    {
      hide ExecuteTicks, Running, Legal, EnterInterrupt, Steps, Decode, Read;
      if !prefixed && machine.cpu.ime && AnyPending(machine.irqs) && currentExecutionCycle == 0 {
        RunningBounds(isa, State());
        EnterPendingInterrupt();
        return 0;
      }
      consumed := Min(numTicks, remainingCyclesInState);
      ExecuteChunks(consumed, prefixed);
      if remainingCyclesInState != 0 {
        return;
      }
      events := events + [Completed(currentOpcode, currentState == ExecutePrefixed)];
      if machine.cpu.halted {
        currentState, remainingCyclesInState := Halted, UNBOUNDED;
      } else {
        currentState, remainingCyclesInState := FetchDecode, 4;
        var _ := HandleFetchDecode(remainingCyclesInState);
      }
    }

    method RunDispatcher(step: nat)
      requires currentInterrupt.Some?
      modifies this
      ensures State() == RunDispatch(old(State()), step) && currentInterrupt == old(currentInterrupt)
    {
      hide Dispatch;
      var result := Dispatch(machine, interruptCancelled, currentInterrupt.value, step);
      match result
      case Some(after) => machine, interruptCancelled := after.0, after.1;
      case None => stuck := true;
    }

    ghost predicate MadeInDispatch(start: Runner, n: nat, done: nat)
      reads this
    {
      && Dispatching(start) && start.irq.Some? && done <= n <= start.left
      && State() == DispatchUnderway(start, n, done)
      && currentExecutionCycle == start.cycle + done && currentInterrupt == start.irq
    }

    method DispatchOneChunk(ticksLeft: nat, ghost start: Runner, ghost n: nat) returns (chunk: nat)
      requires 0 < ticksLeft <= n && MadeInDispatch(start, n, n - ticksLeft)
      modifies this
      ensures 1 <= chunk <= ticksLeft && MadeInDispatch(start, n, n - ticksLeft + chunk)
    {
      hide DispatchUnderway, RunDispatch, InterruptTicks, WithinCycle, Dispatching;
      chunk := NextChunk(ticksLeft);
      DispatchChunkAt(start, n, n - ticksLeft, chunk);
      currentExecutionCycle := currentExecutionCycle + chunk;
      if currentExecutionCycle % 4 == 0 {
        RunDispatcher(currentExecutionCycle / 4 - 1);
      }
    }

    /** The chunk loop of dispatch. */
    method DispatchChunks(numTicks: nat)
      requires Dispatching(State()) && currentInterrupt.Some? && numTicks <= remainingCyclesInState
      modifies this
      ensures State() == InterruptTicks(old(State()), numTicks)
    {
      ghost var start := State();
      DispatchUnderwayEnds(start, numTicks);
      hide DispatchUnderway, Dispatching, InterruptTicks;
      remainingCyclesInState := remainingCyclesInState - numTicks;
      var ticksLeft := numTicks;
      while ticksLeft > 0
        invariant 0 <= ticksLeft <= numTicks && MadeInDispatch(start, numTicks, numTicks - ticksLeft)
      {
        var chunk := DispatchOneChunk(ticksLeft, start, numTicks);
        ticksLeft := ticksLeft - chunk;
      }
    }

    method HandleInterrupt(numTicks: nat) returns (consumed: nat)
      requires Dispatching(State()) && currentInterrupt.Some?
      modifies this
      ensures consumed == Min(numTicks, old(remainingCyclesInState))
      ensures State() == FinishInterrupt(InterruptTicks(old(State()), consumed))
    {
      hide Dispatching, InterruptTicks;
      consumed := Min(numTicks, remainingCyclesInState);
      DispatchChunks(consumed);
      if remainingCyclesInState == 0 {
        currentState, remainingCyclesInState := FetchDecode, 4;
      }
    }

    method HandleHalt(numTicks: nat) returns (consumed: nat)
      requires Inv(isa, State()) && currentState == Halted && 1 <= numTicks
      modifies this
      ensures CanStep(old(State()))
      ensures (State(), consumed) == StepAfterCountDown(isa, old(State()), numTicks)
    {
      HaltedFacts(isa, State());
      hide Inv, InterruptTicks, FetchTicks, ImeOk;
      if !AnyPending(machine.irqs) {
        return numTicks;
      }
      ghost var before := State();
      FirstPendingIsFirst(machine.irqs);
      hide FirstPending, AnyPending;
      machine := machine.(cpu := machine.cpu.(halted := false));
      if machine.cpu.haltIme {
        machine := machine.(cpu := machine.cpu.(pc := Word(machine.cpu.pc + 1)));
        EnterPendingInterrupt();
        var available := Min(numTicks, remainingCyclesInState);
        consumed := HandleInterrupt(available);
      } else {
        currentState, remainingCyclesInState := FetchDecode, 4;
        consumed := Min(numTicks, remainingCyclesInState);
        var _ := HandleFetchDecode(remainingCyclesInState);
      }
    }

    method CountDownDelay(numTicks: nat)
      modifies this
      ensures State() == CountDown(old(State()), numTicks)
    {
      if machine.cpu.imeDelay > 0 {
        var delay := machine.cpu.imeDelay - Min(numTicks, machine.cpu.imeDelay);
        machine := machine.(cpu := machine.cpu.(imeDelay := delay, ime := delay == 0));
      }
    }

    method OneStep(numTicks: nat) returns (consumed: nat)
      requires Inv(isa, State()) && 1 <= numTicks
      modifies this
      ensures CanStep(old(State())) && (State(), consumed) == Step(isa, old(State()), numTicks)
    {
      StepKeeps(isa, State(), numTicks);
      CountDownKeeps(isa, State(), numTicks);
      CountDownDelay(numTicks);
      CountedFacts(isa, State());
      hide CountDown, Inv, Running, Legal, ImeOk, FetchTicks, FetchPrefixedTicks, ExecuteTicks, InterruptTicks,
        FinishExecute, FinishInterrupt, EnterInterrupt, AnyPending;
      match currentState
      case FetchDecode => consumed := HandleFetchDecode(numTicks);
      case FetchDecodePrefixed => consumed := HandleFetchDecodePrefixed(numTicks);
      case Execute => consumed := HandleExecute(numTicks, false);
      case ExecutePrefixed => consumed := HandleExecute(numTicks, true);
      case Interrupting => consumed := HandleInterrupt(numTicks);
      case Halted => consumed := HandleHalt(numTicks);
    }

    /** However the ticks are cut into steps, the unit is where the state machine is. */
    method Tick(numTicks: nat)
      requires Inv(isa, State())
      modifies this
      ensures Inv(isa, State())
      ensures State() == CpuInvariant.Tick(isa, old(State()), numTicks)
    {
      hide Inv, Step, CanStep;
      var remaining := numTicks;
      while remaining > 0
        invariant 0 <= remaining <= numTicks && Inv(isa, State())
        invariant CpuInvariant.Tick(isa, State(), remaining) == CpuInvariant.Tick(isa, old(State()), numTicks)
        decreases remaining, if currentState == Execute then 1 else 0
      {
        ghost var s, c := TickUnfolds(isa, State(), remaining);
        var consumed := OneStep(remaining);
        remaining := remaining - consumed;
      }
    }
  }

  lemma HaltedFacts(isa: Isa, r: Runner)
    requires Inv(isa, r) && r.phase == Halted
    ensures CanStep(r) && ImeOk(r.m.cpu) && !r.stuck
  {
    hide Running, Legal;
  }

  lemma CountedFacts(isa: Isa, r: Runner)
    requires Inv(isa, r)
    ensures CanStep(r)
    ensures r.phase == Execute || r.phase == ExecutePrefixed ==> Legal(isa) && Running(isa, r)
    ensures r.phase == Interrupting ==> Dispatching(r)
  {
    hide Running, Legal;
  }
}
