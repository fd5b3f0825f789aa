/** EI directly followed by DI: the delayed enable is withdrawn before it can be used. */
module CpuEiThenDi {
  import opened Common
  import opened CpuModel
  import opened CpuRunner
  import opened CpuInvariant
  import opened CpuChunks
  import opened CpuEiDelay

  const EI: byte := 0xFB
  const DI: byte := 0xF3

  /** In the middle of EI with the interrupt master enable off. */
  ghost predicate InEi(r: Runner) {
    r.phase == Execute && r.opcode == EI && r.cycle < 4 && !r.m.cpu.ime && r.m.cpu.imeDelay == 0
  }

  /** DI fetched straight after EI: the countdown ends in the tick in which DI runs its step. */
  ghost predicate InDi(r: Runner) {
    r.phase == Execute && r.opcode == DI && r.cycle < 4 && r.cycle + r.left == 4
    && r.m.cpu.imeDelay == r.left && !r.m.cpu.ime
  }

  /** `x` ticks into what follows DI: the master enable is off, with no countdown. */
  ghost predicate PastDi(r: Runner, x: nat) {
    && !r.m.cpu.ime && r.m.cpu.imeDelay == 0
    && ((r.phase == Execute && r.cycle == x) || (r.phase == FetchDecodePrefixed && r.left == 4 - x))
  }

  const EI_EVENTS := [StepRun(EI, false, 0), Armed, Completed(EI, false), Fetched(DI, false, 1)]

  /** The fetch recorded on the way into `r`; a prefix alone is not recorded. */
  ghost function FetchInto(r: Runner): seq<Event> {
    if r.phase == Execute then [Fetched(r.opcode, false, (r.cycle + r.left) / 4)] else []
  }

  /** Where the runner is `t` ticks after the first of EI, seen from a tick `start` inside EI, and all
      that has happened by then. */
  ghost predicate Follows(start: Runner, r: Runner, t: nat) {
    if t < 4 then InEi(r) && r.cycle == t && r.log == start.log && r.m.cpu == start.m.cpu
    else if t < 8 then InDi(r) && r.cycle == t - 4 && r.log == start.log + EI_EVENTS
    else
      && PastDi(r, t - 8)
      && r.log == start.log + EI_EVENTS + [StepRun(DI, false, 0), Completed(DI, false)] + FetchInto(r)
  }

  // ---------------------------------------------------------------- in EI

  lemma EiCycle(isa: Isa, r: Runner)
    requires Inv(isa, r) && InEi(r)
    ensures r.cycle + r.left == 4 && CanStep(r) && !r.m.cpu.halted
  {
    NotHalted(isa, r);
    hide Legal;
  }

  /** Some ticks of EI, the last of which runs its step. */
  lemma EiExecutes(isa: Isa, r: Runner, k: nat)
    requires InEi(r) && r.cycle + r.left == 4 && 1 <= k <= r.left
    ensures ExecuteTicks(isa, r, k) ==
      if k < r.left then Later(r, k)
      else Note(Note(r.(cycle := 4, left := 0, m := r.m.(cpu := r.m.cpu.(imeDelay := IME_DELAY))),
        StepRun(EI, false, 0)), Armed)
  {
    ChunkExecutes(isa, r, k);
    hide Read, ExecuteTicks;
  }

  /** A call may end inside EI or take it to its end, where DI is fetched. */
  lemma EiStep(isa: Isa, start: Runner, r: Runner, t: nat, k: nat)
    requires Inv(isa, r) && Follows(start, r, t) && t < 4 && 1 <= k && Read(r.m, r.m.cpu.pc) == DI
    ensures CanStep(r) && Step(isa, r, k).1 == Min(k, 4 - t)
    ensures Follows(start, Step(isa, r, k).0, t + Min(k, 4 - t))
  {
    EiCycle(isa, r);
    EiExecutes(isa, r, Min(k, 4 - t));
    EiUninterrupted(r, k);
    hide Inv, Read, ExecuteTicks, CountDown, Interruptible;
    var x := ExecuteTicks(isa, r, Min(k, 4 - t));
    assert x.left == 0 ==>
      x.log + [Completed(EI, false)] + [Fetched(DI, false, 1)] == start.log + EI_EVENTS;
  }

  lemma EiUninterrupted(r: Runner, k: nat)
    requires InEi(r)
    ensures CountDown(r, k) == r && !Interruptible(r)
  {
  }

  // ---------------------------------------------------------------- in DI

  /** Some ticks of DI after the countdown's share of them. */
  lemma DiExecutes(isa: Isa, r: Runner, k: nat)
    requires r.phase == Execute && r.opcode == DI && r.cycle < 4 && r.cycle + r.left == 4 && 1 <= k <= r.left
    ensures ExecuteTicks(isa, r, k) ==
      if k < r.left then Later(r, k)
      else Note(r.(cycle := 4, left := 0, m := r.m.(cpu := r.m.cpu.(ime := false, imeDelay := 0))),
        StepRun(DI, false, 0))
  {
    ChunkExecutes(isa, r, k);
    hide Read, ExecuteTicks;
  }

  lemma FinishesDi(isa: Isa, start: Runner, x: Runner)
    requires Legal(isa)
    requires x.phase == Execute && x.opcode == DI && x.left == 0 && !x.m.cpu.halted
    requires !x.m.cpu.ime && x.m.cpu.imeDelay == 0 && x.log == start.log + EI_EVENTS + [StepRun(DI, false, 0)]
    ensures Follows(start, FinishExecute(isa, x), 8)
  {
    hide Read, Steps, Legal;
    var ran := start.log + EI_EVENTS;
    assert ran + [StepRun(DI, false, 0), Completed(DI, false)]
        == (ran + [StepRun(DI, false, 0)]) + [Completed(DI, false)];
  }

  /** The countdown cannot run out before DI's first tick. */
  lemma DiUninterrupted(r: Runner, k: nat)
    requires InDi(r) && 1 <= k <= LONGEST_CALL
    ensures var c := CountDown(r, k);
      && !Interruptible(c) && c == r.(m := r.m.(cpu := c.m.cpu)) && c.m.cpu.halted == r.m.cpu.halted
      && (k < r.left ==> c.m.cpu.imeDelay == r.left - k && !c.m.cpu.ime)
  {
  }

  lemma DiStep(isa: Isa, start: Runner, r: Runner, t: nat, k: nat)
    requires Inv(isa, r) && Follows(start, r, t) && 4 <= t < 8 && 1 <= k <= LONGEST_CALL
    ensures CanStep(r) && Step(isa, r, k).1 == Min(k, 8 - t)
    ensures Follows(start, Step(isa, r, k).0, t + Min(k, 8 - t))
  {
    RunningNow(isa, r);
    NotHalted(isa, r);
    hide Inv, Legal, Running, ExecuteTicks, CountDown, Interruptible, FetchTicks;
    var c, n := CountDown(r, k), Min(k, 8 - t);
    DiUninterrupted(r, k);
    DiExecutes(isa, c, n);
    if n == r.left {
      FinishesDi(isa, start, ExecuteTicks(isa, c, n));
    }
  }

  // ---------------------------------------------------------------- past DI

  lemma PastStep(isa: Isa, start: Runner, r: Runner, t: nat, k: nat)
    requires Inv(isa, r) && Follows(start, r, t) && 8 <= t && t + k < 12 && 1 <= k
    ensures CanStep(r) && Step(isa, r, k).1 == k && Follows(start, Step(isa, r, k).0, t + k)
  {
    if r.phase == Execute {
      FirstCycle(isa, r);
      QuietExecute(isa, r, k);
    }
    hide Inv, ExecuteTicks;
  }

  // ---------------------------------------------------------------- runs

  lemma {:induction false} TickFollows(isa: Isa, start: Runner, r: Runner, t: nat, k: nat)
    requires Inv(isa, r) && Follows(start, r, t) && t + k < 12 && k <= LONGEST_CALL
    requires t < 4 ==> Read(r.m, r.m.cpu.pc) == DI
    ensures Follows(start, Tick(isa, r, k), t + k)
    decreases k
  {
    hide Inv, Follows, Step, CanStep, Read;
    if k > 0 {
      var due := if t < 4 then 4 - t else if t < 8 then 8 - t else k;
      if t < 4 {
        EiStep(isa, start, r, t, k);
      } else if t < 8 {
        DiStep(isa, start, r, t, k);
      } else {
        PastStep(isa, start, r, t, k);
      }
      var s, consumed := TickUnfolds(isa, r, k);
      assert consumed == Min(k, due);
      if consumed < k {
        TickFollows(isa, start, s, t + consumed, k - consumed);
      } else {
        assert Tick(isa, s, 0) == s;
      }
    }
  }

  /** The last tick of EI arms the countdown and fetches DI. */
  lemma EiFetchesDi(isa: Isa, r: Runner)
    requires Inv(isa, r) && InEi(r) && r.left == 1 && Read(r.m, r.m.cpu.pc) == DI
    ensures InDi(Tick(isa, r, 1))
  {
    EiCycle(isa, r);
    hide Inv, Tick, Read;
    TickFollows(isa, r, r, 3, 1);
  }

  ghost function TotalTicks(inputs: seq<Input>): nat {
    if inputs == [] then 0 else TotalTicks(inputs[..|inputs| - 1]) + inputs[|inputs| - 1].ticks
  }

  /** The other components leave DI in its place. */
  ghost predicate DiNext(r: Runner, i: Input) {
    Read(r.m.(mem := i.mem, irqs := i.irqs), r.m.cpu.pc) == DI
  }

  /** From any tick of EI, in calls of at most three ticks wherever they fall, and whatever requests
      arrive: EI runs, DI runs, and up to the fourth tick after it no interrupt is entered; from DI's
      last tick the master enable is off with no countdown running. */
  lemma {:induction false} EiThenDi(isa: Isa, r: Runner, inputs: seq<Input>)
    requires Inv(isa, r) && InEi(r) && r.cycle + TotalTicks(inputs) < 12
    requires forall i :: i in inputs ==> i.ticks <= LONGEST_CALL && DiNext(r, i)
    ensures Follows(r, Run(isa, r, inputs), r.cycle + TotalTicks(inputs))
  {
    hide Inv, Tick;
    if inputs != [] {
      var before, i := inputs[..|inputs| - 1], inputs[|inputs| - 1];
      EiThenDi(isa, r, before);
      var s := Run(isa, r, before);
      SurroundingsKeep(isa, s, i.mem, i.irqs);
      var t := s.(m := s.m.(mem := i.mem, irqs := i.irqs));
      TickFollows(isa, r, t, r.cycle + TotalTicks(before), i.ticks);
    }
  }
}
