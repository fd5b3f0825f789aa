/** The delayed effect of EI, in calls of at most three ticks: after EI arms the interrupt master
    enable no interrupt is entered until one further instruction has completed. */
module CpuEiDelay {
  import opened Common
  import opened Interrupts
  import opened CpuModel
  import opened CpuRunner
  import opened CpuInvariant
  import opened CpuChunks

  /** Instructions completed since EI last armed, if no interrupt has been entered since. */
  ghost function SinceArmed(log: seq<Event>): Option<nat> {
    if log == [] then None
    else
      var before := SinceArmed(log[..|log| - 1]);
      match log[|log| - 1]
      case Fetched(_, _, _) => before
      case StepRun(_, _, _) => before
      case Armed => Some(0)
      case Completed(_, _) => if before.Some? then Some(before.value + 1) else None
      case Entered(_) => None
  }

  /** The longest call that keeps the delay: one tick short of the countdown. */
  const LONGEST_CALL := 3

  /** An interrupt may follow EI only after EI itself and one more instruction. */
  ghost predicate MayEnter(log: seq<Event>) {
    SinceArmed(log).Some? ==> SinceArmed(log).value >= 2
  }

  ghost predicate EiRespected(log: seq<Event>) {
    log == [] ||
      var init := log[..|log| - 1];
      EiRespected(init) && (log[|log| - 1].Entered? ==> MayEnter(init))
  }

  /** While the countdown runs the instruction after EI is in its first machine cycle; after
      that, and until it completes, no point is reached where interrupts are polled. */
  ghost predicate Gap(r: Runner) {
    && EiRespected(r.log)
    && (SinceArmed(r.log).Some? ==> SinceArmed(r.log).value >= 1)
    && (r.m.cpu.imeDelay > 0 ==>
         && SinceArmed(r.log) == Some(1) && !r.m.cpu.ime
         && ((r.phase == Execute && r.cycle + r.m.cpu.imeDelay == IME_DELAY)
             || (r.phase == FetchDecodePrefixed && r.left == r.m.cpu.imeDelay)))
    && (SinceArmed(r.log) == Some(1) && r.m.cpu.imeDelay == 0 ==>
         (r.phase == Execute && r.cycle > 0) || r.phase == ExecutePrefixed)
  }

  lemma Noted(r: Runner, e: Event)
    requires EiRespected(r.log)
    ensures var log := Note(r, e).log;
      && (e.Entered? ==> MayEnter(r.log)) == EiRespected(log)
      && SinceArmed(log) == match e
         case Fetched(_, _, _) => SinceArmed(r.log)
         case StepRun(_, _, _) => SinceArmed(r.log)
         case Armed => Some(0)
         case Completed(_, _) => if SinceArmed(r.log).Some? then Some(SinceArmed(r.log).value + 1) else None
         case Entered(_) => None
  {
    assert Note(r, e).log[..|r.log|] == r.log;
  }

  // ---------------------------------------------------------------- execution

  /** EI has just armed: it is over, and nothing has followed yet. */
  ghost predicate JustArmed(r: Runner) {
    && SinceArmed(r.log) == Some(0) && r.m.cpu.imeDelay == IME_DELAY && !r.m.cpu.ime
    && r.left == 0 && r.phase == Execute && !r.m.cpu.halted
  }

  /** What running a step does to the countdown and the record. */
  lemma RunStepGap(isa: Isa, r: Runner)
    requires Legal(isa) && Running(isa, r) && r.cycle > 0 && r.cycle % 4 == 0 && !r.m.cpu.halted
    requires EiRespected(r.log) && r.m.cpu.imeDelay == 0
    ensures var s := RunStep(isa, r, r.cycle / 4 - 1);
      && EiRespected(s.log)
      && if s.m.cpu.imeDelay > 0 then JustArmed(s) else SinceArmed(s.log) == SinceArmed(r.log)
  {
    var step := r.cycle / 4 - 1;
    var prefixed := r.phase == ExecutePrefixed;
    var noted := Note(r, StepRun(r.opcode, prefixed, step));
    Noted(r, StepRun(r.opcode, prefixed, step));
    StepBelowCount(isa, r);
    if prefixed {
      PrefixedDefined(isa, r.m, r.opcode, step);
    } else {
      ExecDefined(isa, r.m, r.opcode, step);
      ArmsOnlyEi(isa, r.m, r.opcode, step);
      EiIsOneStep(isa, r);
    }
    var result := if prefixed then isa.execPrefixed(r.m, r.opcode, step) else Exec(isa, r.m, r.opcode, step);
    Noted(noted.(m := result.value), Armed);
    hide Exec, Decode, Steps, EiRespected, SinceArmed, Running, Legal;
  }

  lemma EiIsOneStep(isa: Isa, r: Runner)
    requires Running(isa, r) && r.cycle > 0 && r.cycle % 4 == 0 && r.phase == Execute
    ensures Decode(r.opcode) == Ei ==> r.left == 0
  {
  }

  /** Only EI starts the countdown, and only from off. */
  lemma ArmsOnlyEi(isa: Isa, m: Machine, opcode: byte, step: nat)
    requires Legal(isa) && ImeOk(m.cpu) && m.cpu.imeDelay == 0 && step < Steps(isa, m.cpu, opcode)
    ensures Exec(isa, m, opcode, step).Some?
    ensures var cpu := Exec(isa, m, opcode, step).value.cpu;
      cpu.imeDelay > 0 ==>
        Decode(opcode) == Ei && !m.cpu.ime && cpu.imeDelay == IME_DELAY && !cpu.ime && cpu.halted == m.cpu.halted
  {
    hide Read, Write;
    assert Decode(opcode) == Other ==> StepLegal(isa.steps, isa.exec, m, opcode, step);
    PushKeeps(m, High(m.cpu.pc));
    PushKeeps(m, Low(m.cpu.pc));
  }

  lemma ExecuteTickGap(isa: Isa, r: Runner)
    requires Legal(isa) && Running(isa, r) && r.left > 0 && EiRespected(r.log) && r.m.cpu.imeDelay == 0
    ensures var s := ExecuteTick(isa, r);
      && EiRespected(s.log)
      && if s.m.cpu.imeDelay > 0 then JustArmed(s) else SinceArmed(s.log) == SinceArmed(r.log)
  {
    hide RunStep, Legal, Decode, Steps, EiRespected, SinceArmed, ExecuteTick;
    var t := TickCounted(isa, r);
    if t.cycle % 4 == 0 {
      RunStepGap(isa, t);
    }
  }

  /** Ticks of execution with no countdown running: EI may arm, and then it is at its end. */
  lemma {:induction false} ExecuteTicksGap(isa: Isa, r: Runner, k: nat)
    requires Legal(isa) && Running(isa, r) && k <= r.left && EiRespected(r.log) && r.m.cpu.imeDelay == 0
    ensures var s := ExecuteTicks(isa, r, k);
      && EiRespected(s.log)
      && if s.m.cpu.imeDelay > 0 then JustArmed(s) else SinceArmed(s.log) == SinceArmed(r.log)
  {
    hide Running, Legal, ExecuteTick, EiRespected, SinceArmed;
    if k > 0 {
      ExecuteTicksGap(isa, r, k - 1);
      ExecuteTicksKeep(isa, r, k - 1);
      ExecuteTickGap(isa, ExecuteTicks(isa, r, k - 1));
    }
  }

  // ---------------------------------------------------------------- one step in each state

  /** A fetch: with the countdown just started it has to be a whole one. */
  lemma FetchGap(isa: Isa, r: Runner, k: nat)
    requires EiRespected(r.log) && r.phase == FetchDecode && 1 <= k
    requires SinceArmed(r.log).Some? ==> SinceArmed(r.log).value >= 1
    requires SinceArmed(r.log) == Some(1) ==> r.m.cpu.imeDelay > 0
    requires r.m.cpu.imeDelay > 0 ==>
      SinceArmed(r.log) == Some(1) && r.m.cpu.imeDelay == IME_DELAY && !r.m.cpu.ime && r.left <= k
    ensures Gap(FetchTicks(isa, r, k))
  {
    hide EiRespected, SinceArmed, Decode, Steps, Read;
    var f := Fetch(r.(left := r.left - Min(k, r.left)));
    Noted(f, Fetched(f.opcode, false, Steps(isa, f.m.cpu, f.opcode)));
  }

  lemma FetchPrefixedGap(isa: Isa, r: Runner, k: nat)
    requires Gap(r) && r.phase == FetchDecodePrefixed && 1 <= k
    ensures Gap(FetchPrefixedTicks(isa, CountDown(r, k), Min(k, r.left)))
  {
    hide EiRespected, SinceArmed, Read;
    var c := CountDown(r, k);
    var f := Fetch(c.(left := c.left - Min(k, c.left)));
    Noted(f, Fetched(f.opcode, true, isa.stepsPrefixed(f.m.cpu.alu, f.opcode)));
  }

  lemma FinishGap(isa: Isa, r: Runner)
    requires Running(isa, r) && EiRespected(r.log)
    requires r.left > 0 ==> Gap(r)
    requires r.left == 0 ==> if r.m.cpu.imeDelay > 0 then JustArmed(r) else SinceArmed(r.log) != Some(0)
    ensures Gap(FinishExecute(isa, r))
  {
    hide EiRespected, SinceArmed, Running, FetchTicks;
    if r.left == 0 {
      var done := Note(r, Completed(r.opcode, r.phase == ExecutePrefixed));
      Noted(r, Completed(r.opcode, r.phase == ExecutePrefixed));
      if !r.m.cpu.halted {
        FetchGap(isa, done.(phase := FetchDecode, left := 4), 4);
      }
    }
  }

  lemma DispatchTickArmsNothing(r: Runner)
    requires r.irq.Some? && r.m.cpu.imeDelay == 0
    ensures InterruptTick(r).m.cpu.imeDelay == 0
  {
    PushKeeps(r.m, High(r.m.cpu.pc));
    PushKeeps(r.m, Low(r.m.cpu.pc));
    hide Push, FirstPending;
  }

  lemma {:induction false} DispatchNeverArms(r: Runner, k: nat)
    requires r.irq.Some? && r.m.cpu.imeDelay == 0
    ensures InterruptTicks(r, k).m.cpu.imeDelay == 0
  {
    hide InterruptTick;
    if k > 0 {
      DispatchNeverArms(r, k - 1);
      DispatchTickArmsNothing(InterruptTicks(r, k - 1));
    }
  }

  lemma InterruptGap(r: Runner, k: nat)
    requires ImeOk(r.m.cpu) && !r.stuck && !r.m.cpu.halted && r.irq.Some? && r.phase == Interrupting
    requires r.cycle + r.left == DISPATCH_TICKS && k <= r.left && Gap(r)
    ensures Gap(FinishInterrupt(InterruptTicks(r, k)))
  {
    DispatchNeverArms(r, k);
    InterruptTicksKeep(r, k);
    hide EiRespected, SinceArmed, InterruptTicks;
  }

  lemma EnterGap(r: Runner)
    requires AnyPending(r.m.irqs) && EiRespected(r.log) && MayEnter(r.log) && r.m.cpu.imeDelay == 0
    ensures Gap(EnterInterrupt(r))
  {
    FirstPendingIsFirst(r.m.irqs);
    Noted(r, Entered(FirstPending(r.m.irqs).value));
    hide EiRespected, SinceArmed, FirstPending;
  }

  /** Execution while the countdown outlasts the step: still inside the first machine cycle. */
  lemma CountingGap(isa: Isa, r: Runner, k: nat)
    requires Inv(isa, r) && Gap(r) && 1 <= k < r.m.cpu.imeDelay && r.phase == Execute
    ensures k <= r.left && Gap(FinishExecute(isa, ExecuteTicks(isa, CountDown(r, k), k)))
  {
    FirstCycle(isa, r);
    var c := CountDown(r, k);
    QuietExecute(isa, c, k);
    hide EiRespected, SinceArmed, ExecuteTicks, Inv;
  }

  lemma FirstCycle(isa: Isa, r: Runner)
    requires Inv(isa, r) && r.phase == Execute && r.cycle < 4
    ensures r.left >= 4 - r.cycle
  {
    hide Legal, Count;
  }

  /** Execution in which the countdown, if any, ends before the first tick. */
  lemma CountedGap(isa: Isa, r: Runner, k: nat)
    requires Inv(isa, r) && Gap(r) && (r.phase == Execute || r.phase == ExecutePrefixed) && 1 <= k
    requires r.m.cpu.imeDelay <= k && !Interruptible(CountDown(r, k))
    ensures Gap(FinishExecute(isa, ExecuteTicks(isa, CountDown(r, k), Min(k, r.left))))
  {
    CountDownKeeps(isa, r, k);
    RunningNow(isa, CountDown(r, k));
    hide EiRespected, SinceArmed, ExecuteTicks, FinishExecute, Running, Legal, AnyPending;
    var c, n := CountDown(r, k), Min(k, r.left);
    ExecuteTicksGap(isa, c, n);
    ExecuteTicksKeep(isa, c, n);
    FinishGap(isa, ExecuteTicks(isa, c, n));
  }

  lemma RunningNow(isa: Isa, r: Runner)
    requires Inv(isa, r) && (r.phase == Execute || r.phase == ExecutePrefixed)
    ensures Legal(isa) && Running(isa, r) && r.left >= 1
  {
  }

  lemma HaltedGap(isa: Isa, r: Runner, k: nat)
    requires Inv(isa, r) && Gap(r) && r.phase == Halted && 1 <= k
    ensures Gap(StepAfterCountDown(isa, r, k).0)
  {
    hide EiRespected, SinceArmed, Legal, Running, InterruptTicks, FetchTicks;
    if AnyPending(r.m.irqs) {
      FirstPendingIsFirst(r.m.irqs);
      hide AnyPending, FirstPending;
      var woken := r.(m := r.m.(cpu := r.m.cpu.(halted := false)));
      if r.m.cpu.haltIme {
        var w := woken.(m := woken.m.(cpu := woken.m.cpu.(pc := Word(woken.m.cpu.pc + 1))));
        EnterGap(w);
        InterruptGap(EnterInterrupt(w), Min(k, DISPATCH_TICKS));
      } else {
        FetchGap(isa, woken.(phase := FetchDecode, left := 4), 4);
      }
    }
  }

  /** Where the countdown is running the state is the first machine cycle of an instruction. */
  lemma StepGap(isa: Isa, r: Runner, k: nat)
    requires Inv(isa, r) && Gap(r) && 1 <= k <= LONGEST_CALL
    ensures CanStep(r) && Gap(Step(isa, r, k).0)
  {
    StepKeeps(isa, r, k);
    CountDownKeeps(isa, r, k);
    var c := CountDown(r, k);
    hide EiRespected, SinceArmed, Decode, Steps, Read, Legal, Running, FinishExecute, FinishInterrupt, InterruptTicks,
      ExecuteTicks, FetchTicks, FetchPrefixedTicks, AnyPending;
    match r.phase {
      case FetchDecode => FetchGap(isa, c, Min(k, c.left));
      case FetchDecodePrefixed => FetchPrefixedGap(isa, r, k);
      case Execute =>
        if k < r.m.cpu.imeDelay { CountingGap(isa, r, k); }
        else if Interruptible(c) { EnterGap(c); }
        else { CountedGap(isa, r, k); }
      case ExecutePrefixed => CountedGap(isa, r, k);
      case Interrupting => InterruptGap(r, Min(k, r.left));
      case Halted => HaltedGap(isa, r, k);
    }
  }

  // ---------------------------------------------------------------- runs

  lemma {:induction false} TickGap(isa: Isa, r: Runner, n: nat)
    requires Inv(isa, r) && Gap(r) && n <= LONGEST_CALL
    ensures Gap(Tick(isa, r, n))
    decreases n, if r.phase == Execute then 1 else 0
  {
    hide Inv, Gap, Step, CanStep;
    if n > 0 {
      StepGap(isa, r, n);
      var s, consumed := TickUnfolds(isa, r, n);
      TickGap(isa, s, n - consumed);
    }
  }

  /** Over every program and any behaviour of the other components between calls of at most three
      ticks: an interrupt entered after EI armed is preceded by the completion of EI and of at least
      one further instruction. */
  lemma {:induction false} EiDelay(isa: Isa, r: Runner, inputs: seq<Input>)
    requires Legal(isa) && Reset(r)
    requires forall i :: i in inputs ==> i.ticks <= LONGEST_CALL
    ensures Inv(isa, r)
    ensures EiRespected(Run(isa, r, inputs).log)
    ensures Gap(Run(isa, r, inputs))
  {
    if inputs != [] {
      var before, i := inputs[..|inputs| - 1], inputs[|inputs| - 1];
      EiDelay(isa, r, before);
      var s := Run(isa, r, before);
      SurroundingsKeep(isa, s, i.mem, i.irqs);
      assert Gap(s.(m := s.m.(mem := i.mem, irqs := i.irqs)));
      TickGap(isa, s.(m := s.m.(mem := i.mem, irqs := i.irqs)), i.ticks);
    }
    hide Inv, Tick, EiRespected, SinceArmed, Legal;
  }
}
