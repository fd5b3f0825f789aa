/** How long calls may be for the delay after EI to hold: up to three ticks always, from four on not. */
module CpuEiBatches {
  import opened Common
  import opened Interrupts
  import opened Decimal
  import opened CpuModel
  import opened CpuRunner
  import opened CpuInvariant
  import opened CpuChunks
  import opened CpuEiDelay

  const EI: byte := 0xFB
  const START: word := 0xC000

  /** Every byte of memory is EI. */
  function EiEverywhere(): Memory {
    seq(0x1_0000, i => EI)
  }

  const QUIET_IRQS := Irqs({}, {}, 0)
  const URGENT_IRQS := Irqs({VBlankIrq}, {VBlankIrq}, 0)

  /** Switched on, about to run that program with nothing requested. */
  function SwitchedOn(): Runner {
    Runner(Machine(Cpu(START, 0xFFFE, Alu(0, false, false, false, false), [], false, 0, false, false, 0, 0),
                   EiEverywhere(), QUIET_IRQS),
           FetchDecode, 0, 4, 0, None, false, false, [])
  }

  /** Fetch EI, run it, and request an interrupt before the next call. */
  ghost function Breaking(): seq<Input> {
    [Input(EiEverywhere(), QUIET_IRQS, 4), Input(EiEverywhere(), QUIET_IRQS, 4), Input(EiEverywhere(), URGENT_IRQS, 4)]
  }

  const FETCHED_EI := Fetched(EI, false, 1)
  const RAN_EI := [StepRun(EI, false, 0), Armed, Completed(EI, false)]

  /** The first call fetches EI. */
  ghost function AfterFirst(): Runner {
    var r := SwitchedOn();
    r.(phase := Execute, left := 4, opcode := EI, m := r.m.(cpu := r.m.cpu.(pc := START + 1)), log := [FETCHED_EI])
  }

  /** The second runs it and fetches the next instruction, with the countdown at four. */
  ghost function AfterSecond(): Runner {
    var r := AfterFirst();
    r.(m := r.m.(cpu := r.m.cpu.(pc := START + 2, imeDelay := IME_DELAY)), log := [FETCHED_EI] + RAN_EI + [FETCHED_EI])
  }

  lemma FetchesEi(isa: Isa, r: Runner)
    requires r.m.mem == EiEverywhere() && PlainMemory(r.m.cpu.pc) && r.phase == FetchDecode && r.left == 4
    ensures FetchTicks(isa, r, 4) == r.(
      phase := Execute, cycle := 0, opcode := EI, m := r.m.(cpu := r.m.cpu.(pc := Word(r.m.cpu.pc + 1))),
      log := r.log + [FETCHED_EI])
  {
  }

  lemma FirstCall(isa: Isa)
    requires Inv(isa, SwitchedOn())
    ensures Tick(isa, SwitchedOn(), 4) == AfterFirst()
  {
    var r := SwitchedOn();
    FetchesEi(isa, r);
    hide Inv, FetchTicks, EiEverywhere;
    var s, consumed := TickUnfolds(isa, r, 4);
    assert CountDown(r, 4) == r;
    assert s == AfterFirst() && consumed == 4;
    assert Tick(isa, s, 0) == s;
  }

  lemma EiRuns(isa: Isa, r: Runner)
    requires r.phase == Execute && r.opcode == EI && r.cycle == 4 && !r.m.cpu.ime && r.m.cpu.imeDelay == 0
    ensures RunStep(isa, r, 0) == r.(m := r.m.(cpu := r.m.cpu.(imeDelay := IME_DELAY)),
                                     log := r.log + [StepRun(EI, false, 0), Armed])
  {
    assert r.log + [StepRun(EI, false, 0), Armed] == (r.log + [StepRun(EI, false, 0)]) + [Armed];
  }

  lemma RunsAndFetches(isa: Isa)
    ensures FinishExecute(isa, ExecuteTicks(isa, AfterFirst(), 4)) == AfterSecond()
  {
    hide ExecuteTicks, RunStep, FetchTicks, EiEverywhere;
    var r := AfterFirst();
    ChunkExecutes(isa, r, 4);
    EiRuns(isa, Later(r, 4));
    var x := ExecuteTicks(isa, r, 4);
    assert x.log + [Completed(EI, false)] == [FETCHED_EI] + RAN_EI;
    FetchesEi(isa, x.(log := [FETCHED_EI] + RAN_EI, phase := FetchDecode, left := 4));
  }

  lemma NotInterruptible(r: Runner)
    requires !r.m.cpu.ime && r.m.cpu.imeDelay == 0
    ensures CountDown(r, 4) == r && !Interruptible(r)
  {
  }

  lemma SecondCall(isa: Isa)
    requires Inv(isa, AfterFirst())
    ensures Tick(isa, AfterFirst(), 4) == AfterSecond()
  {
    var r := AfterFirst();
    hide Inv, ExecuteTicks, FinishExecute, EiEverywhere, CountDown, Interruptible;
    RunsAndFetches(isa);
    NotInterruptible(r);
    var s, consumed := TickUnfolds(isa, r, 4);
    assert s == AfterSecond() && consumed == 4;
    assert Tick(isa, s, 0) == s;
  }

  lemma OnlyEiSince()
    ensures SinceArmed(AfterSecond().log) == Some(1) && EiRespected(AfterSecond().log)
  {
    var r := AfterSecond().(log := []);
    Noted(r, FETCHED_EI);
    var a := Note(r, FETCHED_EI);
    Noted(a, StepRun(EI, false, 0));
    var b := Note(a, StepRun(EI, false, 0));
    Noted(b, Armed);
    var c := Note(b, Armed);
    Noted(c, Completed(EI, false));
    var d := Note(c, Completed(EI, false));
    Noted(d, FETCHED_EI);
    assert Note(d, FETCHED_EI).log == AfterSecond().log;
  }

  /** The third call counts all four ticks down before its first, and enters the interrupt. */
  lemma Enters(r: Runner)
    requires r == AfterSecond().(m := AfterSecond().m.(irqs := URGENT_IRQS))
    ensures Interruptible(CountDown(r, 4)) && !EiRespected(EnterInterrupt(CountDown(r, 4)).log)
  {
    OnlyEiSince();
    assert VBlankIrq in URGENT_IRQS.enabled * URGENT_IRQS.requested;
    FirstPendingIsFirst(r.m.irqs);
    hide EiRespected, SinceArmed, FirstPending, EiEverywhere;
    var c := CountDown(r, 4);
    assert c == r.(m := r.m.(cpu := r.m.cpu.(ime := true, imeDelay := 0)));
    Noted(c, Entered(FirstPending(c.m.irqs).value));
  }

  lemma DispatchKeepsRecord(isa: Isa, r: Runner)
    requires Inv(isa, r) && r.phase == Interrupting && r.left >= 4
    ensures Tick(isa, r, 4).log == r.log
  {
    CountDownKeeps(isa, r, 4);
    DispatchFacts(isa, CountDown(r, 4));
    hide Inv, InterruptTicks, CountDown, ImeOk;
    var c := CountDown(r, 4);
    InterruptTicksKeep(c, 4);
    var s, consumed := TickUnfolds(isa, r, 4);
    assert s == FinishInterrupt(InterruptTicks(c, 4)) && consumed == 4;
    assert Tick(isa, s, 0) == s;
  }

  lemma DispatchFacts(isa: Isa, r: Runner)
    requires Inv(isa, r) && r.phase == Interrupting
    ensures ImeOk(r.m.cpu) && !r.stuck && !r.m.cpu.halted && r.irq.Some? && r.cycle + r.left == DISPATCH_TICKS
  {
    hide Running, Legal;
  }

  lemma ThirdCall(isa: Isa, r: Runner)
    requires r == AfterSecond().(m := AfterSecond().m.(irqs := URGENT_IRQS)) && Inv(isa, r)
    ensures !EiRespected(Tick(isa, r, 4).log)
  {
    Enters(r);
    hide Inv, EiRespected, EiEverywhere, Interruptible, CountDown, AnyPending, FirstPending;
    var e, consumed := TickUnfolds(isa, r, 4);
    assert e == EnterInterrupt(CountDown(r, 4)) && consumed == 0;
    DispatchKeepsRecord(isa, e);
  }

  lemma SwitchedOnInv(isa: Isa)
    requires Legal(isa)
    ensures Reset(SwitchedOn()) && Inv(isa, SwitchedOn())
  {
    hide Legal, Running;
  }

  /** With a table of any other instructions, three calls of four ticks enter an interrupt straight
      after EI. */
  lemma FourTickCallsBreak(isa: Isa)
    requires Legal(isa)
    ensures Reset(SwitchedOn()) && Inv(isa, SwitchedOn())
    ensures !EiRespected(Run(isa, SwitchedOn(), Breaking()).log)
  {
    SwitchedOnInv(isa);
    hide Inv, Legal, Tick, EiRespected, Reset;
    var inputs := Breaking();
    assert inputs[..2][..1] == inputs[..1] && inputs[..1][..0] == [] && inputs[..3] == inputs;
    FirstCall(isa);
    assert Run(isa, SwitchedOn(), inputs[..1]) == RunOne(isa, SwitchedOn(), inputs[0]) == AfterFirst();
    SecondCall(isa);
    assert Run(isa, SwitchedOn(), inputs[..2]) == RunOne(isa, AfterFirst(), inputs[1]) == AfterSecond();
    SurroundingsKeep(isa, AfterSecond(), EiEverywhere(), URGENT_IRQS);
    ThirdCall(isa, AfterSecond().(m := AfterSecond().m.(irqs := URGENT_IRQS)));
  }

  /** Every run in calls of at most `longest` ticks respects the delay. */
  ghost predicate DelayHolds(isa: Isa, longest: nat)
    requires Legal(isa)
  {
    forall r: Runner, inputs: seq<Input> ::
      (Reset(r) && Inv(isa, r) && (forall i :: i in inputs ==> i.ticks <= longest)) ==>
        EiRespected(Run(isa, r, inputs).log)
  }

  /** The delay after EI holds of all runs exactly when no call is longer than three ticks. */
  lemma DelayIffShortCalls(isa: Isa, longest: nat)
    requires Legal(isa)
    ensures DelayHolds(isa, longest) <==> longest <= LONGEST_CALL
  {
    hide Inv, Legal, EiRespected, Reset, Run;
    if longest <= LONGEST_CALL {
      forall r: Runner, inputs: seq<Input> |
        Reset(r) && Inv(isa, r) && (forall i :: i in inputs ==> i.ticks <= longest)
        ensures EiRespected(Run(isa, r, inputs).log)
      {
        EiDelay(isa, r, inputs);
      }
    } else {
      FourTickCallsBreak(isa);
      assert forall i :: i in Breaking() ==> i.ticks <= longest;
    }
  }
}
