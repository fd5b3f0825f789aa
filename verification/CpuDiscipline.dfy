/** Instructions run whole: for every chunking of ticks each instruction is handed exactly the steps
    counted when it was fetched, in order, one every four ticks, and no interrupt ever splits one. */
module CpuDiscipline {
  import opened Common
  import opened Interrupts
  import opened CpuModel
  import opened CpuRunner
  import opened CpuInvariant
  import opened CpuChunks

  /** An instruction fetched and not yet completed or displaced by an interrupt: what was fetched, the
      count decided then, and the steps handed out since. */
  datatype InFlight = InFlight(opcode: byte, prefixed: bool, count: nat, done: nat)

  ghost function Current(log: seq<Event>): Option<InFlight> {
    if log == [] then None
    else
      var before := Current(log[..|log| - 1]);
      match log[|log| - 1]
      case Fetched(opcode, prefixed, count) => Some(InFlight(opcode, prefixed, count, 0))
      case StepRun(_, _, _) => if before.Some? then Some(before.value.(done := before.value.done + 1)) else None
      case Armed => before
      case Completed(_, _) => None
      case Entered(_) => None
  }

  /** Whether an event may follow: a fetch only when nothing is in flight; a step only of the
      instruction in flight, the next one, and below its count; completion only of that instruction and
      after exactly its count; an interrupt only before its first step. */
  ghost predicate MayFollow(current: Option<InFlight>, e: Event) {
    match e
    case Fetched(_, _, count) => current == None && 1 <= count <= MAX_STEPS
    case StepRun(opcode, prefixed, step) =>
      current.Some? && current.value == InFlight(opcode, prefixed, current.value.count, step)
        && step < current.value.count
    case Armed => current.Some?
    case Completed(opcode, prefixed) =>
      current.Some? && current.value == InFlight(opcode, prefixed, current.value.count, current.value.count)
    case Entered(_) => current.Some? ==> !current.value.prefixed && current.value.done == 0
  }

  ghost predicate InOrder(log: seq<Event>) {
    log == [] || (InOrder(log[..|log| - 1]) && MayFollow(Current(log[..|log| - 1]), log[|log| - 1]))
  }

  /** What the runner's own fields say is in flight. */
  ghost function InProgress(r: Runner): Option<InFlight> {
    if r.phase == Execute || r.phase == ExecutePrefixed
    then Some(InFlight(r.opcode, r.phase == ExecutePrefixed, (r.cycle + r.left) / 4, r.cycle / 4))
    else None
  }

  ghost predicate Disciplined(r: Runner) {
    InOrder(r.log) && Current(r.log) == InProgress(r)
  }

  lemma Noted(r: Runner, e: Event)
    ensures InOrder(Note(r, e).log) == (InOrder(r.log) && MayFollow(Current(r.log), e))
    ensures Current(Note(r, e).log) == match e
      case Fetched(opcode, prefixed, count) => Some(InFlight(opcode, prefixed, count, 0))
      case StepRun(_, _, _) =>
        if Current(r.log).Some? then Some(Current(r.log).value.(done := Current(r.log).value.done + 1)) else None
      case Armed => Current(r.log)
      case Completed(_, _) => None
      case Entered(_) => None
  {
    assert Note(r, e).log[..|r.log|] == r.log;
  }

  // ---------------------------------------------------------------- execution

  /** Handing over the next step of the instruction in flight. */
  lemma RunStepInOrder(isa: Isa, r: Runner, step: nat)
    requires InOrder(r.log) && Current(r.log).Some?
    requires var c := Current(r.log).value;
      c == InFlight(r.opcode, r.phase == ExecutePrefixed, c.count, step) && step < c.count
    ensures var s := RunStep(isa, r, step);
      InOrder(s.log) && Current(s.log) == Some(Current(r.log).value.(done := step + 1))
  {
    hide Exec, InOrder, Current;
    var prefixed := r.phase == ExecutePrefixed;
    var noted := Note(r, StepRun(r.opcode, prefixed, step));
    Noted(r, StepRun(r.opcode, prefixed, step));
    var result := if prefixed then isa.execPrefixed(r.m, r.opcode, step) else Exec(isa, r.m, r.opcode, step);
    if result.Some? {
      Noted(noted.(m := result.value), Armed);
    }
  }

  lemma Quarters(c: nat)
    ensures if (c + 1) % 4 == 0 then (c + 1) / 4 == c / 4 + 1 else (c + 1) / 4 == c / 4
  {
  }

  lemma NextStepDue(isa: Isa, r: Runner)
    requires Running(isa, r) && r.left > 0
    ensures r.cycle / 4 < (r.cycle + r.left) / 4
  {
    hide Count;
  }

  lemma ExecuteTickInOrder(isa: Isa, r: Runner)
    requires Legal(isa) && Running(isa, r) && r.left > 0 && Disciplined(r)
    ensures Disciplined(ExecuteTick(isa, r))
  {
    hide Running, Legal, ExecuteTick, RunStep, InOrder, Current;
    Quarters(r.cycle);
    NextStepDue(isa, r);
    InExecute(isa, r);
    ExecuteTickKeeps(isa, r);
    var s := TickCounted(isa, r);
    if s.cycle % 4 == 0 {
      RunStepInOrder(isa, s, r.cycle / 4);
    }
  }

  lemma InExecute(isa: Isa, r: Runner)
    requires Running(isa, r)
    ensures r.phase == Execute || r.phase == ExecutePrefixed
    ensures r.left == 0 ==> r.cycle / 4 == (r.cycle + r.left) / 4 == Count(isa, r)
  {
    hide Count;
  }

  lemma {:induction false} ExecuteTicksInOrder(isa: Isa, r: Runner, k: nat)
    requires Legal(isa) && Running(isa, r) && k <= r.left && Disciplined(r)
    ensures Disciplined(ExecuteTicks(isa, r, k))
  {
    hide Running, Legal, ExecuteTick, Disciplined;
    if k > 0 {
      ExecuteTicksInOrder(isa, r, k - 1);
      ExecuteTicksKeep(isa, r, k - 1);
      ExecuteTickInOrder(isa, ExecuteTicks(isa, r, k - 1));
    }
  }

  /** However a run of an instruction's ticks is cut, after `k` of them exactly the steps 0 to k / 4 - 1
      of the count it was fetched with have been handed out. */
  lemma StepEveryFourTicks(isa: Isa, r: Runner, j: nat, k: nat)
    requires Legal(isa) && Running(isa, r) && j + k <= r.left && r.cycle == 0 && Disciplined(r)
    ensures ExecuteTicks(isa, r, j + k) == ExecuteTicks(isa, ExecuteTicks(isa, r, j), k)
    ensures var log := ExecuteTicks(isa, r, j + k).log;
      InOrder(log) && Current(log) == Some(InFlight(r.opcode, r.phase == ExecutePrefixed, Count(isa, r), (j + k) / 4))
  {
    hide Legal, ExecuteTicks, ExecuteTick, InOrder, Current, Count;
    ExecuteTicksInOrder(isa, r, j + k);
    ExecuteTicksKeep(isa, r, j + k);
    ExecuteTicksSplit(isa, r, j, k);
  }

  // ---------------------------------------------------------------- whole runs

  lemma CountInRange(isa: Isa, cpu: Cpu, opcode: byte)
    requires Legal(isa)
    ensures 1 <= Steps(isa, cpu, opcode) <= MAX_STEPS && 1 <= isa.stepsPrefixed(cpu.alu, opcode) <= MAX_STEPS
  {
  }

  lemma FetchedState(r: Runner)
    ensures Fetch(r) == r.(opcode := Fetch(r).opcode, m := Fetch(r).m, cycle := 0)
  {
  }

  lemma FetchInOrder(isa: Isa, r: Runner, k: nat)
    requires Legal(isa) && InOrder(r.log) && Current(r.log) == None && r.phase == FetchDecode && k >= 1
    ensures Disciplined(FetchTicks(isa, r, k))
  {
    hide InOrder, Current, Decode, Steps, Read, Legal, Fetch;
    var f := Fetch(r.(left := r.left - Min(k, r.left)));
    FetchedState(r.(left := r.left - Min(k, r.left)));
    CountInRange(isa, f.m.cpu, f.opcode);
    Noted(f, Fetched(f.opcode, false, Steps(isa, f.m.cpu, f.opcode)));
  }

  lemma FetchPrefixedInOrder(isa: Isa, r: Runner, k: nat)
    requires Legal(isa) && Disciplined(r) && r.phase == FetchDecodePrefixed && k >= 1
    ensures Disciplined(FetchPrefixedTicks(isa, r, k))
  {
    hide InOrder, Current, Read, Legal, Fetch;
    var f := Fetch(r.(left := r.left - Min(k, r.left)));
    FetchedState(r.(left := r.left - Min(k, r.left)));
    CountInRange(isa, f.m.cpu, f.opcode);
    Noted(f, Fetched(f.opcode, true, isa.stepsPrefixed(f.m.cpu.alu, f.opcode)));
  }

  lemma FinishInOrder(isa: Isa, r: Runner)
    requires Legal(isa) && Running(isa, r) && Disciplined(r)
    ensures Disciplined(FinishExecute(isa, r))
  {
    hide InOrder, Current, Decode, Steps, Read, Legal, Running, FetchTicks;
    InExecute(isa, r);
    if r.left == 0 {
      var done := Note(r, Completed(r.opcode, r.phase == ExecutePrefixed));
      Noted(r, Completed(r.opcode, r.phase == ExecutePrefixed));
      if !r.m.cpu.halted {
        FetchInOrder(isa, done.(phase := FetchDecode, left := 4), 4);
      }
    }
  }

  lemma EnterInOrder(r: Runner)
    requires AnyPending(r.m.irqs) && InOrder(r.log)
    requires Current(r.log) == None || (Disciplined(r) && r.phase == Execute && r.cycle == 0)
    ensures Disciplined(EnterInterrupt(r))
  {
    FirstPendingIsFirst(r.m.irqs);
    hide FirstPending, AnyPending, InOrder, Current;
    Noted(r, Entered(FirstPending(r.m.irqs).value));
  }

  lemma ExecuteInOrder(isa: Isa, r: Runner, k: nat)
    requires Inv(isa, r) && Disciplined(r) && (r.phase == Execute || r.phase == ExecutePrefixed) && 1 <= k <= r.left
    ensures Disciplined(FinishExecute(isa, ExecuteTicks(isa, r, k)))
  {
    ExecuteTicksInOrder(isa, r, k);
    ExecuteTicksKeep(isa, r, k);
    hide Running, Legal, ExecuteTicks, FinishExecute, Disciplined;
    FinishInOrder(isa, ExecuteTicks(isa, r, k));
  }

  lemma InterruptInOrder(isa: Isa, r: Runner, k: nat)
    requires Legal(isa) && ImeOk(r.m.cpu) && !r.stuck && !r.m.cpu.halted && r.irq.Some? && r.phase == Interrupting
    requires r.cycle + r.left == DISPATCH_TICKS && 1 <= k <= r.left && Disciplined(r)
    ensures Disciplined(FinishInterrupt(InterruptTicks(r, k)))
  {
    InterruptTicksKeep(r, k);
    hide InOrder, Current, InterruptTicks, Legal;
  }

  lemma HaltedInOrder(isa: Isa, r: Runner, k: nat)
    requires Inv(isa, r) && r.phase == Halted && 1 <= k && Disciplined(r)
    ensures Disciplined(StepAfterCountDown(isa, r, k).0)
  {
    hide InterruptTicks, Legal, Running, InOrder, Current, Decode, Steps, Read, FetchTicks;
    if AnyPending(r.m.irqs) {
      FirstPendingIsFirst(r.m.irqs);
      hide AnyPending, FirstPending;
      var woken := r.(m := r.m.(cpu := r.m.cpu.(halted := false)));
      if r.m.cpu.haltIme {
        var w := woken.(m := woken.m.(cpu := woken.m.cpu.(pc := Word(woken.m.cpu.pc + 1))));
        EnterInOrder(w);
        InterruptInOrder(isa, EnterInterrupt(w), Min(k, DISPATCH_TICKS));
      } else {
        FetchInOrder(isa, woken.(phase := FetchDecode, left := 4), 4);
      }
    }
  }

  lemma StepInOrder(isa: Isa, r: Runner, k: nat)
    requires Inv(isa, r) && Disciplined(r) && 1 <= k
    ensures CanStep(r) && Disciplined(Step(isa, r, k).0)
  {
    CountDownKeeps(isa, r, k);
    var c := CountDown(r, k);
    assert Disciplined(c);
    StepKeeps(isa, r, k);
    hide CountDown, InOrder, Current, Decode, Steps, Read, Running, Legal, FetchTicks, FetchPrefixedTicks;
    match c.phase {
      case FetchDecode => FetchInOrder(isa, c, Min(k, c.left));
      case FetchDecodePrefixed => FetchPrefixedInOrder(isa, c, Min(k, c.left));
      case Execute =>
        if Interruptible(c) { EnterInOrder(c); } else { ExecuteInOrder(isa, c, Min(k, c.left)); }
      case ExecutePrefixed => ExecuteInOrder(isa, c, Min(k, c.left));
      case Interrupting => InterruptInOrder(isa, c, Min(k, c.left));
      case Halted => HaltedInOrder(isa, c, k);
    }
    hide FinishExecute, FinishInterrupt, InterruptTicks, ExecuteTicks;
  }

  lemma {:induction false} TickInOrder(isa: Isa, r: Runner, n: nat)
    requires Inv(isa, r) && Disciplined(r)
    ensures Disciplined(Tick(isa, r, n))
    decreases n, if r.phase == Execute then 1 else 0
  {
    hide Inv, Disciplined, Step, CanStep;
    if n > 0 {
      var s, consumed := TickUnfolds(isa, r, n);
      StepInOrder(isa, r, n);
      TickInOrder(isa, s, n - consumed);
    }
  }

  /** Over every program, every chunking of ticks and any behaviour of the other components, the record
      is one of whole instructions: every instruction fetched with count n receives its steps 0 to
      n - 1, once each and in order, and then completes, unless an interrupt takes its place before the
      first of them. */
  lemma {:induction false} RunInOrder(isa: Isa, r: Runner, inputs: seq<Input>)
    requires Legal(isa) && Reset(r)
    ensures Inv(isa, r)
    ensures InOrder(Run(isa, r, inputs).log)
    ensures Current(Run(isa, r, inputs).log) == InProgress(Run(isa, r, inputs))
  {
    hide Inv, Tick, InOrder, Current, Legal;
    if inputs == [] {
      StartsEmpty(r);
    } else {
      RunInOrder(isa, r, inputs[..|inputs| - 1]);
      var s, i := Run(isa, r, inputs[..|inputs| - 1]), inputs[|inputs| - 1];
      SurroundingsKeep(isa, s, i.mem, i.irqs);
      TickInOrder(isa, s.(m := s.m.(mem := i.mem, irqs := i.irqs)), i.ticks);
    }
    ResetInv(isa, r);
  }

  lemma StartsEmpty(r: Runner)
    requires r.log == []
    ensures InOrder(r.log) && Current(r.log) == None
  {
  }

  lemma ResetInv(isa: Isa, r: Runner)
    requires Legal(isa) && Reset(r)
    ensures Inv(isa, r)
  {
    hide Running, Legal;
  }
}
