/** Entering an interrupt handler and returning from it: what dispatch pushes, which request it
    clears, and that RETI straight after brings the program back to where it was. */
module CpuReturn {
  import opened Common
  import opened Interrupts
  import opened CpuModel
  import opened CpuRunner
  import opened CpuInvariant
  import opened CpuChunks
  import opened CpuSplit

  const RETI: byte := 0xD9

  // ---------------------------------------------------------------- on the machine

  /** The machine, and the cancellation flag, after the first `steps` steps of dispatch. */
  function Dispatched(m: Machine, cancelled: bool, i: Irq, steps: nat): (Machine, bool)
    requires steps <= DISPATCH_STEPS
  {
    if steps == 0 then (m, cancelled)
    else
      var before := Dispatched(m, cancelled, i, steps - 1);
      Dispatch(before.0, before.1, i, steps - 1).GetOr(before)
  }

  /** The machine after the first `steps` steps of RETI. */
  function Returned(m: Machine, steps: nat): Machine
    requires steps <= 4
  {
    if steps == 0 then m
    else
      var before := Returned(m, steps - 1);
      ExecReti(before, steps - 1).GetOr(before)
  }

  /** The address of the instruction that was about to run. */
  function NextUnexecuted(cpu: Cpu): word { Word(cpu.pc - 1) }

  function Upper(cpu: Cpu): word { Word(cpu.sp - 1) }

  function Lower(cpu: Cpu): word { Word(cpu.sp - 2) }

  predicate StackInMemory(cpu: Cpu) {
    PlainMemory(Upper(cpu)) && PlainMemory(Lower(cpu))
  }

  // Each step of dispatch and of RETI by itself.

  lemma DispatchedNext(m: Machine, cancelled: bool, i: Irq, steps: nat)
    requires steps < DISPATCH_STEPS
    ensures var before := Dispatched(m, cancelled, i, steps);
      Dispatch(before.0, before.1, i, steps) == Some(Dispatched(m, cancelled, i, steps + 1))
  {
    hide Push, FirstPending, Handler, High, Low;
  }

  lemma ReturnedNext(m: Machine, steps: nat)
    requires steps < 4
    ensures ExecReti(Returned(m, steps), steps) == Some(Returned(m, steps + 1))
  {
    hide Read, Joined;
  }

  lemma PushInMemory(m: Machine, value: byte)
    requires PlainMemory(Upper(m.cpu))
    ensures Push(m, value) == m.(cpu := m.cpu.(sp := Upper(m.cpu)), mem := m.mem[Upper(m.cpu) := value])
  {
    hide FlagsOf;
  }

  lemma StackWords(cpu: Cpu)
    ensures Word(Upper(cpu) - 1) == Lower(cpu) != Upper(cpu)
    ensures Word(Lower(cpu) + 1) == Upper(cpu) && Word(Lower(cpu) + 2) == cpu.sp
  {
  }

  lemma SplitWord(w: word)
    ensures Joined(Low(w), High(w)) == w
  {
  }

  /** With the two stack bytes in memory proper: the next unexecuted address is pushed, the handler
      entered, exactly its request cleared and the interrupt master enable dropped. */
  lemma DispatchEnters(m: Machine, cancelled: bool, i: Irq)
    requires StackInMemory(m.cpu) && i in m.irqs.enabled
    ensures var back := NextUnexecuted(m.cpu);
      Dispatched(m, cancelled, i, DISPATCH_STEPS) ==
        (m.(cpu := m.cpu.(ime := false, imeDelay := 0, pc := Handler(i), sp := Lower(m.cpu)),
            mem := m.mem[Upper(m.cpu) := High(back)][Lower(m.cpu) := Low(back)],
            irqs := m.irqs.(requested := m.irqs.requested - {i})),
         false)
  {
    DispatchedNext(m, cancelled, i, 0);
    DispatchedNext(m, cancelled, i, 1);
    DispatchedNext(m, cancelled, i, 2);
    DispatchedNext(m, cancelled, i, 3);
    assert Dispatched(m, cancelled, i, 0) == (m, cancelled);
    StackWords(m.cpu);
    var back := NextUnexecuted(m.cpu);
    var m0 := m.(cpu := m.cpu.(ime := false, imeDelay := 0, pc := back));
    PushInMemory(m0, High(back));
    var m1 := Push(m0, High(back));
    PushInMemory(m1, Low(back));
    hide Dispatched, Handler, FirstPending, Push, High, Low, PlainMemory, Upper, Lower, Word, NextUnexecuted;
  }

  /** The interrupts enabled once the upper byte of the return address is on the stack; the push
      overwrites the enable register when the stack pointer is 0. */
  function EnabledAfterPush(m: Machine): set<Irq> {
    if Upper(m.cpu) == IE_ADDRESS then FlagsOf(High(NextUnexecuted(m.cpu))) else m.irqs.enabled
  }

  lemma PushEnables(m: Machine, value: byte)
    ensures Push(m, value).irqs.enabled == if Upper(m.cpu) == IE_ADDRESS then FlagsOf(value) else m.irqs.enabled
  {
  }

  /** Whether the chosen interrupt is still on, and what the last step does with the answer: enter
      it, or the most urgent interrupt still pending, or address 0 with no request cleared. */
  ghost predicate Settles(before: Machine, after: Machine, cancelled: bool, i: Irq) {
    if !cancelled then after.cpu.pc == Handler(i)
      && after.irqs == before.irqs.(requested := before.irqs.requested - {i})
    else if AnyPending(before.irqs) then
      exists j: Irq :: IsPending(before.irqs, j)
        && (forall other: Irq :: IsPending(before.irqs, other) ==> BitIndex(j) <= BitIndex(other))
        && after.cpu.pc == Handler(j)
        && after.irqs == before.irqs.(requested := before.irqs.requested - {j})
    else after.cpu.pc == 0 && after.irqs == before.irqs
  }

  lemma LastStepSettles(m: Machine, cancelled: bool, i: Irq)
    ensures var last := Dispatch(m, cancelled, i, 3); last.Some? && Settles(m, last.value.0, cancelled, i)
  {
    FirstPendingIsFirst(m.irqs);
    hide FirstPending, AnyPending, IsPending, BitIndex, Handler;
  }

  lemma LostAtPush(m: Machine, cancelled: bool, i: Irq)
    ensures Dispatched(m, cancelled, i, 3).1 <==> i !in EnabledAfterPush(m)
  {
    DispatchedNext(m, cancelled, i, 0);
    DispatchedNext(m, cancelled, i, 1);
    DispatchedNext(m, cancelled, i, 2);
    hide Dispatched, FlagsOf, Push, High, Low;
    var back := NextUnexecuted(m.cpu);
    PushEnables(m.(cpu := m.cpu.(ime := false, imeDelay := 0, pc := back)), High(back));
    NoSteps(m, cancelled, i);
  }

  lemma NoSteps(m: Machine, cancelled: bool, i: Irq)
    ensures Dispatched(m, cancelled, i, 0) == (m, cancelled)
  {
  }

  /** Dispatch is cancelled exactly when its own push disables the interrupt. */
  lemma DispatchCancelled(m: Machine, cancelled: bool, i: Irq)
    ensures var (last, lost) := Dispatched(m, cancelled, i, DISPATCH_STEPS);
      && (lost <==> i !in EnabledAfterPush(m))
      && Settles(Dispatched(m, cancelled, i, 3).0, last, lost, i)
  {
    LostAtPush(m, cancelled, i);
    DispatchedNext(m, cancelled, i, 3);
    var third := Dispatched(m, cancelled, i, 3);
    LastStepSettles(third.0, third.1, i);
    hide Dispatched, FirstPending, Settles, EnabledAfterPush;
  }

  lemma NextNext(w: word)
    ensures Word(Word(w + 1) + 1) == Word(w + 2)
  {
  }

  lemma ReadIgnoresCpu(m: Machine, cpu: Cpu, address: word)
    ensures Read(m.(cpu := cpu), address) == Read(m, address)
  {
    hide FlagByte;
  }

  lemma NoneReturned(m: Machine)
    ensures Returned(m, 0) == m
  {
  }

  lemma RetiPopsLow(m: Machine)
    ensures Returned(m, 2) == m.(cpu := m.cpu.(ime := true, imeDelay := 0, cache8 := Read(m, m.cpu.sp),
      sp := Word(m.cpu.sp + 1)))
  {
    hide Returned, Joined, Word, Read;
    NoneReturned(m);
    ReturnedNext(m, 0);
    ReturnedNext(m, 1);
    ReadIgnoresCpu(m, Returned(m, 1).cpu, m.cpu.sp);
  }

  /** RETI alone: the two bytes at the stack pointer become the program counter. */
  lemma RetiPops(m: Machine)
    ensures var low, high := Read(m, m.cpu.sp), Read(m, Word(m.cpu.sp + 1));
      Returned(m, 4) == m.(cpu := m.cpu.(ime := true, imeDelay := 0, cache8 := low, pc := Joined(low, high),
                                         sp := Word(m.cpu.sp + 2)))
  {
    hide Returned, Joined, Word, Read;
    RetiPopsLow(m);
    NextNext(m.cpu.sp);
    ReturnedNext(m, 2);
    ReturnedNext(m, 3);
    ReadIgnoresCpu(m, Returned(m, 2).cpu, Word(m.cpu.sp + 1));
  }

  /** RETI undoes dispatch on the processor, wherever in memory the stack is. */
  lemma RetiUndoesDispatch(m: Machine, cancelled: bool, i: Irq, pc: word)
    requires StackInMemory(m.cpu) && i in m.irqs.enabled
    ensures var inside := Dispatched(m, cancelled, i, DISPATCH_STEPS).0;
      var back := NextUnexecuted(m.cpu);
      Returned(inside.(cpu := inside.cpu.(pc := pc)), 4) ==
        inside.(cpu := m.cpu.(pc := back, ime := true, imeDelay := 0, cache8 := Low(back)))
  {
    DispatchEnters(m, cancelled, i);
    StackWords(m.cpu);
    var back := NextUnexecuted(m.cpu);
    SplitWord(back);
    var d := Dispatched(m, cancelled, i, DISPATCH_STEPS).0;
    RetiPops(d.(cpu := d.cpu.(pc := pc)));
    hide Dispatched, Returned, Handler, High, Low, Joined, Word, Upper, Lower, NextUnexecuted;
  }

  // ---------------------------------------------------------------- on the runner

  lemma NextBoundary(cycle: nat)
    requires cycle % 4 == 0
    ensures (cycle + 4) % 4 == 0 && (cycle + 4) / 4 - 1 == cycle / 4
  {
  }

  /** Four ticks of dispatch are one of its steps. */
  lemma FourTicksDispatch(r: Runner)
    requires r.irq.Some? && r.cycle % 4 == 0 && r.cycle < 0x80 && r.left >= 4
    ensures InterruptTicks(r, 4) == RunDispatch(Later(r, 4), r.cycle / 4)
  {
    hide *;
    NextBoundary(r.cycle);
    ChunkDispatches(r, 4);
  }

  lemma {:induction false} DispatchTicks(r: Runner, steps: nat)
    requires r.irq.Some? && r.cycle == 0 && r.left == DISPATCH_TICKS && steps <= DISPATCH_STEPS
    ensures InterruptTicks(r, 4 * steps) ==
      var (m, cancelled) := Dispatched(r.m, r.cancelled, r.irq.value, steps);
      r.(cycle := 4 * steps, left := DISPATCH_TICKS - 4 * steps, m := m, cancelled := cancelled)
  {
    hide InterruptTicks, Dispatch;
    InterruptTicksNext(r, 0);
    if steps > 0 {
      DispatchTicks(r, steps - 1);
      InterruptTicksSplit(r, 4 * (steps - 1), 4);
      FourTicksDispatch(InterruptTicks(r, 4 * (steps - 1)));
      DispatchedNext(r.m, r.cancelled, r.irq.value, steps - 1);
    }
  }

  lemma FourTicksExecute(isa: Isa, r: Runner)
    requires r.cycle % 4 == 0 && r.cycle < 0x80 && r.left >= 4
    ensures ExecuteTicks(isa, r, 4) == RunStep(isa, Later(r, 4), r.cycle / 4)
  {
    hide *;
    NextBoundary(r.cycle);
    ChunkExecutes(isa, r, 4);
  }

  lemma RetiStep(isa: Isa, r: Runner, step: nat)
    requires r.phase == Execute && r.opcode == RETI && r.m.cpu.imeDelay == 0 && step < 4
    ensures var after := ExecReti(r.m, step);
      && after.Some? && after.value.cpu.imeDelay == 0
      && RunStep(isa, r, step) == Note(r, StepRun(RETI, false, step)).(m := after.value)
  {
    hide Read, Joined;
  }

  ghost function RetiEvents(steps: nat): seq<Event> {
    if steps == 0 then [] else RetiEvents(steps - 1) + [StepRun(RETI, false, steps - 1)]
  }

  lemma {:induction false} RetiTicks(isa: Isa, r: Runner, steps: nat)
    requires r.phase == Execute && r.opcode == RETI && r.cycle == 0 && r.left == 16 && r.m.cpu.imeDelay == 0
      && steps <= 4
    ensures ExecuteTicks(isa, r, 4 * steps) ==
      r.(cycle := 4 * steps, left := 16 - 4 * steps, m := Returned(r.m, steps), log := r.log + RetiEvents(steps))
    ensures Returned(r.m, steps).cpu.imeDelay == 0
  {
    hide ExecuteTicks, ExecReti, RunStep;
    ExecuteTicksNext(isa, r, 0);
    if steps > 0 {
      RetiTicks(isa, r, steps - 1);
      var before := ExecuteTicks(isa, r, 4 * (steps - 1));
      ExecuteTicksSplit(isa, r, 4 * (steps - 1), 4);
      FourTicksExecute(isa, before);
      RetiStep(isa, Later(before, 4), steps - 1);
      ReturnedNext(r.m, steps - 1);
      assert r.log + RetiEvents(steps) == before.log + [StepRun(RETI, false, steps - 1)];
    }
  }

  // ---------------------------------------------------------------- the round trip

  lemma FirstPendingEnabled(s: Irqs)
    requires AnyPending(s)
    ensures FirstPending(s).Some? && FirstPending(s).value in s.enabled
  {
    FirstPendingIsFirst(s);
    hide FirstPending, AnyPending;
  }

  /** All sixteen ticks of dispatch at once. */
  lemma DispatchRuns(r: Runner)
    requires r.irq.Some? && r.cycle == 0 && r.left == DISPATCH_TICKS
    ensures FinishInterrupt(InterruptTicks(r, DISPATCH_TICKS)) ==
      var (m, cancelled) := Dispatched(r.m, r.cancelled, r.irq.value, DISPATCH_STEPS);
      r.(phase := FetchDecode, cycle := 16, left := 4, m := m, cancelled := cancelled)
  {
    hide InterruptTicks, Dispatched;
    DispatchTicks(r, DISPATCH_STEPS);
  }

  /** The runner once dispatch is over, having begun with `m`. */
  function AfterDispatch(r: Runner, m: Machine, i: Irq): Runner {
    var (after, cancelled) := Dispatched(m, r.cancelled, i, DISPATCH_STEPS);
    r.(phase := FetchDecode, cycle := 16, left := 4, irq := Some(i), m := after, cancelled := cancelled,
       log := r.log + [Entered(i)])
  }

  lemma EntersAtOnce(isa: Isa, r: Runner)
    requires Inv(isa, r) && Interruptible(r)
    ensures AnyPending(r.m.irqs) && FirstPending(r.m.irqs).Some?
    ensures Tick(isa, r, DISPATCH_TICKS) == AfterDispatch(r, r.m, FirstPending(r.m.irqs).value)
  {
    FirstPendingEnabled(r.m.irqs);
    assert CountDown(r, 16) == r by { NoCountDown(isa, r); }
    hide Dispatched, Inv, InterruptTicks, FinishInterrupt, AnyPending, FirstPending, CountDown;
    var e, _ := TickUnfolds(isa, r, 16);
    assert e == EnterInterrupt(r);
    assert CountDown(e, 16) == e by { SameCountDown(r, e); }
    var s, consumed := TickUnfolds(isa, e, 16);
    DispatchRuns(e);
    assert consumed == 16 && s == FinishInterrupt(InterruptTicks(e, 16));
    assert Tick(isa, s, 0) == s;
  }

  /** Sixteen ticks from the start of an instruction with an interrupt pending, cut into calls anyhow. */
  lemma RunningEnters(isa: Isa, r: Runner, ns: seq<nat>)
    requires Inv(isa, r) && Interruptible(r) && Sum(ns) == DISPATCH_TICKS
    ensures AnyPending(r.m.irqs) && FirstPending(r.m.irqs).Some?
    ensures Calls(isa, r, ns) == AfterDispatch(r, r.m, FirstPending(r.m.irqs).value)
  {
    EnterCalm(isa, r);
    hide *;
    EntersAtOnce(isa, r);
    SteadyEnter(isa, r);
    CallsAreTicks(isa, r, ns);
  }

  /** With the enable on, or a halt it will end, no countdown is running. */
  lemma EnterCalm(isa: Isa, r: Runner)
    requires Inv(isa, r)
    requires Interruptible(r) || (r.phase == Halted && r.m.cpu.haltIme)
    ensures Calm(r)
  {
    hide Running, Legal, AnyPending;
  }

  lemma NoCountDown(isa: Isa, r: Runner)
    requires Inv(isa, r) && r.m.cpu.ime
    ensures CountDown(r, 16) == r
  {
    hide Running, Legal;
  }

  lemma SameCountDown(r: Runner, s: Runner)
    requires CountDown(r, 16) == r && s.m == r.m
    ensures CountDown(s, 16) == s
  {
  }

  lemma HaltEntersAtOnce(isa: Isa, r: Runner)
    requires Inv(isa, r) && r.phase == Halted && r.m.cpu.haltIme && AnyPending(r.m.irqs)
    ensures FirstPending(r.m.irqs).Some?
    ensures Tick(isa, r, DISPATCH_TICKS) == AfterDispatch(r, Woken(r.m), FirstPending(r.m.irqs).value)
  {
    FirstPendingEnabled(r.m.irqs);
    assert CountDown(r, 16) == r by { EnterCalm(isa, r); }
    hide Dispatched, Inv, InterruptTicks, FinishInterrupt, AnyPending, FirstPending, CountDown;
    var s, consumed := TickUnfolds(isa, r, 16);
    var e := EnterInterrupt(r.(m := Woken(r.m)));
    DispatchRuns(e);
    assert consumed == 16 && s == FinishInterrupt(InterruptTicks(e, 16));
    assert Tick(isa, s, 0) == s;
  }

  /** Sixteen ticks from a halt that an interrupt ends, cut into calls anyhow. */
  lemma HaltedEnters(isa: Isa, r: Runner, ns: seq<nat>)
    requires Inv(isa, r) && r.phase == Halted && r.m.cpu.haltIme && AnyPending(r.m.irqs) && Sum(ns) == DISPATCH_TICKS
    ensures FirstPending(r.m.irqs).Some?
    ensures Calls(isa, r, ns) == AfterDispatch(r, Woken(r.m), FirstPending(r.m.irqs).value)
  {
    EnterCalm(isa, r);
    hide *;
    HaltEntersAtOnce(isa, r);
    SteadyEnter(isa, r);
    CallsAreTicks(isa, r, ns);
  }

  lemma WokenCpu(m: Machine)
    ensures NextUnexecuted(Woken(m).cpu) == m.cpu.pc
    ensures StackInMemory(Woken(m).cpu) == StackInMemory(m.cpu)
    ensures !Woken(m).cpu.halted && Woken(m).irqs == m.irqs
  {
  }

  lemma FetchesReti(isa: Isa, r: Runner)
    requires Inv(isa, r) && r.phase == FetchDecode && r.left == 4 && r.m.cpu.imeDelay == 0
      && Read(r.m, r.m.cpu.pc) == RETI
    ensures Tick(isa, r, 4) == r.(phase := Execute, cycle := 0, left := 16, opcode := RETI,
                                  m := r.m.(cpu := r.m.cpu.(pc := Word(r.m.cpu.pc + 1))),
                                  log := r.log + [Fetched(RETI, false, 4)])
  {
    hide Inv, Read;
    assert CountDown(r, 4) == r;
    var s, consumed := TickUnfolds(isa, r, 4);
    assert consumed == 4 && Tick(isa, s, 0) == s;
  }

  lemma RunsReti(isa: Isa, r: Runner)
    requires Inv(isa, r) && r.phase == Execute && r.opcode == RETI && r.cycle == 0 && r.left == 16
    requires !r.m.cpu.ime && r.m.cpu.imeDelay == 0
    ensures Tick(isa, r, 16) == FetchTicks(isa,
      r.(phase := FetchDecode, cycle := 16, left := 4, m := Returned(r.m, 4),
         log := r.log + RetiEvents(4) + [Completed(RETI, false)]), 4)
  {
    assert CountDown(r, 16) == r;
    NotHalted(isa, r);
    RetiTicks(isa, r, 4);
    RetiNeverHalts(r.m, 4);
    hide Inv, ExecuteTicks, FetchTicks, Returned, RetiEvents, CountDown;
    var s, consumed := TickUnfolds(isa, r, 16);
    assert consumed == 16 && s == FinishExecute(isa, ExecuteTicks(isa, r, 16));
    assert Tick(isa, s, 0) == s;
  }

  lemma {:induction false} RetiNeverHalts(m: Machine, steps: nat)
    requires steps <= 4
    ensures Returned(m, steps).cpu.halted == m.cpu.halted
  {
    hide Read, Joined;
    if steps > 0 {
      RetiNeverHalts(m, steps - 1);
    }
  }

  const TRIP_TICKS := 36

  /** Sixteen ticks to enter, four to fetch RETI and sixteen to run it. */
  ghost function EnterAndReturn(isa: Isa, r: Runner): Runner
    requires Inv(isa, r)
  {
    Tick(isa, Tick(isa, Tick(isa, r, DISPATCH_TICKS), 4), 16)
  }

  /** The handler as dispatch leaves it, about to be fetched, and its RETI, about to run. */
  ghost predicate ReadyToReturn(isa: Isa, r: Runner)
    requires Inv(isa, r)
  {
    var p := Tick(isa, r, 4);
    && r.phase == FetchDecode && r.left == 4 && r.m.cpu.imeDelay == 0
    && p.phase == Execute && p.left == 16 && !p.m.cpu.ime && p.m.cpu.imeDelay == 0
  }

  lemma SteadyReturn(isa: Isa, r: Runner)
    requires Inv(isa, r) && ReadyToReturn(isa, r)
    ensures Steady(isa, r, 4) && Steady(isa, Tick(isa, r, 4), 16)
  {
    hide Inv, Tick, Steady, AnyPending;
    SteadyInStep(isa, r, 4);
    SteadyInStep(isa, Tick(isa, r, 4), 16);
  }

  /** However the 36 ticks are cut into calls. */
  lemma TripInCalls(isa: Isa, r: Runner, ns: seq<nat>)
    requires Inv(isa, r) && Steady(isa, r, DISPATCH_TICKS) && ReadyToReturn(isa, Tick(isa, r, DISPATCH_TICKS))
    requires Sum(ns) == TRIP_TICKS
    ensures Calls(isa, r, ns) == EnterAndReturn(isa, r)
  {
    hide Inv, Tick, Steady, ReadyToReturn, Calls, Sum;
    SteadyReturn(isa, Tick(isa, r, DISPATCH_TICKS));
    SteadyJoins(isa, r, DISPATCH_TICKS, 4);
    TickSplit(isa, r, DISPATCH_TICKS, 4);
    SteadyJoins(isa, r, DISPATCH_TICKS + 4, 16);
    TickSplit(isa, r, DISPATCH_TICKS + 4, 16);
    CallsAreTicks(isa, r, ns);
  }

  /** What an interrupt whose handler is a bare RETI leaves behind: the opcode at `back` fetched
      with the processor as `cpu`, the two bytes below the stack pointer overwritten, the request
      cleared. */
  ghost predicate BackAt(isa: Isa, s: Runner, m: Machine, i: Irq, back: word) {
    && s.m.cpu == m.cpu.(pc := Word(back + 1), ime := true, imeDelay := 0, cache8 := Low(back))
    && s.m.mem == m.mem[Upper(m.cpu) := High(back)][Lower(m.cpu) := Low(back)]
    && s.m.irqs == m.irqs.(requested := m.irqs.requested - {i})
    && s.opcode == Read(s.m, back) && s.cycle == 0
    && (s.opcode != PREFIX ==> s.phase == Execute && s.left == 4 * Steps(isa, s.m.cpu, s.opcode))
  }

  /** From the state dispatch leaves, with RETI first in the handler. */
  lemma RetiFollows(isa: Isa, r: Runner, m: Machine, cancelled: bool, i: Irq)
    requires StackInMemory(m.cpu) && i in m.irqs.enabled && !m.cpu.halted
    requires Inv(isa, r) && r.phase == FetchDecode && r.left == 4
    requires r.m == Dispatched(m, cancelled, i, DISPATCH_STEPS).0
    requires Read(r.m, Handler(i)) == RETI
    ensures BackAt(isa, Tick(isa, Tick(isa, r, 4), 16), m, i, NextUnexecuted(m.cpu))
    ensures ReadyToReturn(isa, r)
  {
    DispatchEnters(m, cancelled, i);
    hide Dispatched, Handler, Read, Returned, Inv, Tick, StackInMemory;
    FetchesReti(isa, r);
    var q := Tick(isa, r, 4);
    RunsReti(isa, q);
    RetiUndoesDispatch(m, cancelled, i, q.m.cpu.pc);
    hide Steps, Decode, RetiEvents, Upper, Lower, NextUnexecuted;
  }

  /** The whole trip, from a machine `m` in which dispatch begins. */
  lemma TripTaken(isa: Isa, r: Runner, m: Machine, i: Irq, ns: seq<nat>)
    requires Inv(isa, r) && Steady(isa, r, DISPATCH_TICKS) && Tick(isa, r, DISPATCH_TICKS) == AfterDispatch(r, m, i)
    requires StackInMemory(m.cpu) && i in m.irqs.enabled && !m.cpu.halted
    requires Read(Dispatched(m, r.cancelled, i, DISPATCH_STEPS).0, Handler(i)) == RETI
    requires Sum(ns) == TRIP_TICKS
    ensures BackAt(isa, Calls(isa, r, ns), m, i, NextUnexecuted(m.cpu))
  {
    hide Inv, Steady, Tick, Dispatched, Handler, Read, StackInMemory, BackAt, NextUnexecuted, Calls, Sum, ReadyToReturn;
    RetiFollows(isa, Tick(isa, r, DISPATCH_TICKS), m, r.cancelled, i);
    TripInCalls(isa, r, ns);
  }

  /** An interrupt taken while a program runs: if its handler returns at once, then 36 ticks later,
      however they are cut into calls, the program is where it was, about to run the instruction the
      interrupt displaced. */
  lemma InterruptAndReturn(isa: Isa, r: Runner, ns: seq<nat>)
    requires Inv(isa, r) && Interruptible(r) && StackInMemory(r.m.cpu) && Sum(ns) == TRIP_TICKS
    requires FirstPending(r.m.irqs).Some?
    requires var i := FirstPending(r.m.irqs).value;
      Read(Dispatched(r.m, r.cancelled, i, DISPATCH_STEPS).0, Handler(i)) == RETI
    ensures BackAt(isa, Calls(isa, r, ns), r.m, FirstPending(r.m.irqs).value, NextUnexecuted(r.m.cpu))
    ensures Calls(isa, r, ns).m.cpu == r.m.cpu.(cache8 := Low(NextUnexecuted(r.m.cpu)))
  {
    RunningFacts(isa, r);
    hide *;
    EnterCalm(isa, r);
    EntersAtOnce(isa, r);
    SteadyEnter(isa, r);
    FirstPendingEnabled(r.m.irqs);
    var i := FirstPending(r.m.irqs).value;
    TripTaken(isa, r, r.m, i, ns);
    SameProcessor(isa, Calls(isa, r, ns), r.m, i);
  }

  lemma RunningFacts(isa: Isa, r: Runner)
    requires Inv(isa, r) && Interruptible(r)
    ensures !r.m.cpu.halted && r.m.cpu.ime && r.m.cpu.imeDelay == 0
  {
    hide Running, Legal, AnyPending;
  }

  /** Coming back to the displaced instruction, the processor is as it was. */
  lemma SameProcessor(isa: Isa, s: Runner, m: Machine, i: Irq)
    requires BackAt(isa, s, m, i, NextUnexecuted(m.cpu)) && m.cpu.ime && m.cpu.imeDelay == 0
    ensures s.m.cpu == m.cpu.(cache8 := Low(NextUnexecuted(m.cpu)))
  {
    hide Steps, Read, High, Low, Upper, Lower;
    assert Word(NextUnexecuted(m.cpu) + 1) == m.cpu.pc;
  }

  /** An interrupt that ends a halt returns to the instruction after HALT. */
  lemma HaltAndReturn(isa: Isa, r: Runner, ns: seq<nat>)
    requires Inv(isa, r) && r.phase == Halted && r.m.cpu.haltIme && AnyPending(r.m.irqs)
    requires StackInMemory(r.m.cpu) && FirstPending(r.m.irqs).Some? && Sum(ns) == TRIP_TICKS
    requires var i := FirstPending(r.m.irqs).value;
      Read(Dispatched(Woken(r.m), r.cancelled, i, DISPATCH_STEPS).0, Handler(i)) == RETI
    ensures BackAt(isa, Calls(isa, r, ns), Woken(r.m), FirstPending(r.m.irqs).value, r.m.cpu.pc)
  {
    WokenCpu(r.m);
    hide *;
    EnterCalm(isa, r);
    HaltEntersAtOnce(isa, r);
    SteadyEnter(isa, r);
    FirstPendingEnabled(r.m.irqs);
    TripTaken(isa, r, Woken(r.m), FirstPending(r.m.irqs).value, ns);
  }
}
