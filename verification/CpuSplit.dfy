/** When a run of ticks may be cut into calls anywhere: as long as no enable is counting down and no
    halt is left with the interrupt master enable off. */
module CpuSplit {
  import opened Common
  import opened Interrupts
  import opened CpuModel
  import opened CpuRunner
  import opened CpuInvariant
  import opened CpuChunks
  import opened CpuEiDelay

  /** A state from which it makes no difference how many ticks are offered at once. */
  ghost predicate Calm(r: Runner) {
    r.m.cpu.imeDelay == 0 && (r.phase == Halted && AnyPending(r.m.irqs) ==> r.m.cpu.haltIme)
  }

  /** Calm at each of the `n` ticks. */
  ghost predicate Steady(isa: Isa, r: Runner, n: nat)
    requires Inv(isa, r)
  {
    forall k: nat :: k < n ==> Calm(Tick(isa, r, k))
  }

  /** A step over `a` ticks that leaves `s`, and what `b` more would have made of it: nothing, if it is
      over, and otherwise what a second step makes of `s`. */
  ghost predicate Resumes(isa: Isa, r: Runner, s: Runner, a: nat, b: nat)
    requires CanStep(r) && CanStep(s)
  {
    var whole, rest := Step(isa, r, a + b), Step(isa, s, b);
    (whole.0 == s && whole.1 == a) || (whole.0 == rest.0 && whole.1 == a + rest.1)
  }

  lemma CalmStep(isa: Isa, r: Runner, k: nat)
    requires CanStep(r) && r.m.cpu.imeDelay == 0
    ensures Step(isa, r, k) == StepAfterCountDown(isa, r, k)
  {
    hide StepAfterCountDown;
  }

  // ---------------------------------------------------------------- one step, by phase

  lemma FetchResumes(isa: Isa, r: Runner, a: nat, b: nat)
    requires CanStep(r) && Calm(r) && (r.phase == FetchDecode || r.phase == FetchDecodePrefixed)
    requires 1 <= a <= r.left && 1 <= b
    ensures var s := Step(isa, r, a).0; Step(isa, r, a).1 == a && (CanStep(s) ==> Resumes(isa, r, s, a, b))
  {
    hide Read, Steps, Step, AnyPending;
    CalmStep(isa, r, a);
    CalmStep(isa, r, a + b);
    if a < r.left {
      CalmStep(isa, r.(left := r.left - a), b);
    }
  }

  /** Short of its last tick no instruction starts the countdown. */
  lemma TickArmsNothing(isa: Isa, r: Runner)
    requires Legal(isa) && Running(isa, r) && r.left > 1 && r.m.cpu.imeDelay == 0
    ensures ExecuteTick(isa, r).m.cpu.imeDelay == 0
  {
    hide Legal, Decode, Steps, ExecuteTick, Exec;
    var t := TickCounted(isa, r);
    if t.cycle % 4 == 0 {
      var step := t.cycle / 4 - 1;
      StepBelowCount(isa, t);
      if t.phase == ExecutePrefixed {
        PrefixedDefined(isa, t.m, t.opcode, step);
      } else {
        ArmsOnlyEi(isa, t.m, t.opcode, step);
        EiIsOneStep(isa, t);
      }
    }
  }

  lemma {:induction false} NothingArmed(isa: Isa, r: Runner, k: nat)
    requires Legal(isa) && Running(isa, r) && k < r.left && r.m.cpu.imeDelay == 0
    ensures ExecuteTicks(isa, r, k).m.cpu.imeDelay == 0
  {
    hide Running, Legal, ExecuteTick;
    if k > 0 {
      NothingArmed(isa, r, k - 1);
      ExecuteTicksKeep(isa, r, k - 1);
      TickArmsNothing(isa, ExecuteTicks(isa, r, k - 1));
    }
  }

  lemma CalmExecution(isa: Isa, r: Runner, k: nat)
    requires CanStep(r) && r.m.cpu.imeDelay == 0 && (r.phase == Execute || r.phase == ExecutePrefixed)
    requires !Interruptible(r)
    ensures Step(isa, r, k) == (FinishExecute(isa, ExecuteTicks(isa, r, Min(k, r.left))), Min(k, r.left))
  {
    CalmStep(isa, r, k);
    hide FinishExecute, ExecuteTicks, Interruptible, Step;
  }

  lemma Unfinished(isa: Isa, r: Runner)
    requires r.left > 0
    ensures FinishExecute(isa, r) == r
  {
  }

  lemma UnderWay(r: Runner)
    ensures r.cycle > 0 ==> !Interruptible(r)
    ensures Calm(r) ==> r.m.cpu.imeDelay == 0
  {
  }

  lemma StepOver(isa: Isa, r: Runner, s: Runner, a: nat, b: nat)
    requires CanStep(r) && Step(isa, r, a + b).0 == s && Step(isa, r, a + b).1 == a
    ensures CanStep(s) ==> Resumes(isa, r, s, a, b)
  {
    hide Step, CanStep;
  }

  lemma StepGoesOn(isa: Isa, r: Runner, s: Runner, a: nat, b: nat)
    requires CanStep(r) && CanStep(s)
    requires Step(isa, r, a + b).0 == Step(isa, s, b).0 && Step(isa, r, a + b).1 == a + Step(isa, s, b).1
    ensures Resumes(isa, r, s, a, b)
  {
    hide Step, CanStep;
  }

  lemma ExecuteResumes(isa: Isa, r: Runner, a: nat, b: nat)
    requires Inv(isa, r) && Calm(r) && (r.phase == Execute || r.phase == ExecutePrefixed) && !Interruptible(r)
    requires 1 <= a <= r.left && 1 <= b && CanStep(r)
    ensures var s := Step(isa, r, a).0; Step(isa, r, a).1 == a && (CanStep(s) ==> Resumes(isa, r, s, a, b))
  {
    hide *;
    RunningNow(isa, r);
    UnderWay(r);
    CalmExecution(isa, r, a);
    CalmExecution(isa, r, a + b);
    MinShifts(a, b, r.left);
    MinShifts(a, 0, r.left);
    MinAtMost(0, r.left - a);
    if a < r.left {
      var s := ExecuteTicks(isa, r, a);
      PartWay(isa, r, a);
      Unfinished(isa, s);
      UnderWay(s);
      ExecutePart(isa, r, s, a, b);
      StepGoesOn(isa, r, s, a, b);
    } else {
      MinAtMost(b, r.left - a);
      StepOver(isa, r, Step(isa, r, a).0, a, b);
    }
  }

  lemma MinAtMost(b: nat, left: nat)
    ensures Min(b, left) <= b && Min(b, left) <= left
  {
  }

  lemma ExecutePart(isa: Isa, r: Runner, s: Runner, a: nat, b: nat)
    requires CanStep(s) && s.m.cpu.imeDelay == 0 && (s.phase == Execute || s.phase == ExecutePrefixed)
    requires !Interruptible(s) && s == ExecuteTicks(isa, r, a) && a + s.left == r.left
    ensures Step(isa, s, b).0 == FinishExecute(isa, ExecuteTicks(isa, r, Min(a + b, r.left)))
    ensures a + Step(isa, s, b).1 == Min(a + b, r.left)
  {
    hide *;
    CalmExecution(isa, s, b);
    MinShifts(a, b, r.left);
    ExecuteTicksSplit(isa, r, a, Min(b, s.left));
  }

  lemma MinShifts(a: nat, b: nat, left: nat)
    requires a <= left
    ensures Min(a + b, left) == a + Min(b, left - a)
  {
  }

  lemma PartWay(isa: Isa, r: Runner, a: nat)
    requires Legal(isa) && Running(isa, r) && r.m.cpu.imeDelay == 0 && 1 <= a < r.left
    ensures var s := ExecuteTicks(isa, r, a);
      && CanStep(s) && s.m.cpu.imeDelay == 0 && (s.phase == Execute || s.phase == ExecutePrefixed)
      && s.cycle > 0 && s.left == r.left - a
  {
    ExecuteTicksKeep(isa, r, a);
    NothingArmed(isa, r, a);
    hide ExecuteTicks, Legal;
  }

  lemma DispatchResumes(isa: Isa, r: Runner, a: nat, b: nat)
    requires CanStep(r) && r.m.cpu.imeDelay == 0 && r.phase == Interrupting && r.cycle + r.left == DISPATCH_TICKS
    requires ImeOk(r.m.cpu) && !r.stuck && !r.m.cpu.halted
    requires 1 <= a <= r.left && 1 <= b
    ensures var s := Step(isa, r, a).0; Step(isa, r, a).1 == a && (CanStep(s) ==> Resumes(isa, r, s, a, b))
  {
    hide InterruptTicks, Step, ImeOk;
    CalmStep(isa, r, a);
    CalmStep(isa, r, a + b);
    InterruptTicksKeep(r, a);
    var s := InterruptTicks(r, a);
    if a < r.left {
      DispatchNeverArms(r, a);
      CalmStep(isa, s, b);
      InterruptTicksSplit(r, a, Min(b, s.left));
      assert Min(a + b, r.left) == a + Min(b, s.left);
    }
  }

  /** The halted processor as an interrupt finds it: awake, its program counter one ahead. */
  function Woken(m: Machine): Machine {
    m.(cpu := m.cpu.(halted := false, pc := Word(m.cpu.pc + 1)))
  }

  /** The state in which a halt that an interrupt ends begins its dispatch. */
  function WokenInto(r: Runner): Runner
    requires AnyPending(r.m.irqs)
  {
    EnterInterrupt(r.(m := Woken(r.m)))
  }

  lemma WakesInto(isa: Isa, r: Runner, k: nat)
    requires Inv(isa, r) && Calm(r) && r.phase == Halted && AnyPending(r.m.irqs) && 1 <= k
    ensures var e := WokenInto(r);
      && e.phase == Interrupting && e.cycle == 0 && e.left == DISPATCH_TICKS && e.irq.Some?
      && e.m.cpu.imeDelay == 0 && !e.m.cpu.halted && !e.stuck && ImeOk(e.m.cpu) && Inv(isa, e)
      && CanStep(r) && CanStep(e)
      && Step(isa, r, k).0 == Step(isa, e, k).0 && Step(isa, r, k).1 == Step(isa, e, k).1
  {
    FirstPendingIsFirst(r.m.irqs);
    var e := WokenInto(r);
    hide InterruptTicks, FinishInterrupt, AnyPending, FirstPending, Step, FetchTicks, Legal;
    CalmStep(isa, r, k);
    CalmStep(isa, e, k);
  }

  lemma HaltResumes(isa: Isa, r: Runner, a: nat, b: nat)
    requires Inv(isa, r) && Calm(r) && r.phase == Halted && 1 <= a && 1 <= b
    requires CanStep(r) && Step(isa, r, a).1 == a
    ensures var s := Step(isa, r, a).0; CanStep(s) ==> Resumes(isa, r, s, a, b)
  {
    hide Step, AnyPending, Inv, Calm, WokenInto, Resumes, CanStep;
    if AnyPending(r.m.irqs) {
      WakesInto(isa, r, a);
      WakesInto(isa, r, a + b);
      var e := WokenInto(r);
      DispatchBound(isa, e, a);
      DispatchResumes(isa, e, a, b);
      SameResumption(isa, r, e, a, b);
    } else {
      Sleeps(isa, r, a);
      Sleeps(isa, r, b);
      Sleeps(isa, r, a + b);
      StepGoesOn(isa, r, r, a, b);
    }
  }

  lemma SameResumption(isa: Isa, r: Runner, e: Runner, a: nat, b: nat)
    requires CanStep(r) && CanStep(e)
    requires Step(isa, r, a).0 == Step(isa, e, a).0
    requires Step(isa, r, a + b).0 == Step(isa, e, a + b).0 && Step(isa, r, a + b).1 == Step(isa, e, a + b).1
    ensures var s := Step(isa, r, a).0; CanStep(s) && Resumes(isa, e, s, a, b) ==> Resumes(isa, r, s, a, b)
  {
    hide Step, CanStep;
  }

  lemma DispatchBound(isa: Isa, e: Runner, a: nat)
    requires e.phase == Interrupting && e.m.cpu.imeDelay == 0 && CanStep(e) && Step(isa, e, a).1 == a
    ensures a <= e.left
  {
    CalmStep(isa, e, a);
    hide Step, InterruptTicks;
  }

  lemma Sleeps(isa: Isa, r: Runner, k: nat)
    requires Inv(isa, r) && Calm(r) && r.phase == Halted && !AnyPending(r.m.irqs)
    ensures CanStep(r) && Step(isa, r, k).0 == r && Step(isa, r, k).1 == k
  {
    CalmStep(isa, r, k);
    hide Step, AnyPending, Legal;
  }

  // ---------------------------------------------------------------- one step

  lemma Enters(isa: Isa, r: Runner, k: nat)
    requires CanStep(r) && Calm(r) && Interruptible(r)
    ensures Step(isa, r, k).0 == EnterInterrupt(r) && Step(isa, r, k).1 == 0
  {
    CalmStep(isa, r, k);
    hide Step, AnyPending, EnterInterrupt;
  }

  lemma DispatchReady(isa: Isa, r: Runner)
    requires Inv(isa, r)
    ensures CanStep(r)
    ensures r.phase == Interrupting ==>
      r.cycle + r.left == DISPATCH_TICKS && ImeOk(r.m.cpu) && !r.stuck && !r.m.cpu.halted
  {
    hide Legal, Running;
  }

  /** What a step offered `k` ticks consumes. */
  lemma Consumes(isa: Isa, r: Runner, k: nat)
    requires CanStep(r) && Calm(r) && r.phase != Halted
    ensures Interruptible(r) || Step(isa, r, k).1 == Min(k, r.left)
  {
    CalmStep(isa, r, k);
    hide Step, FetchTicks, FetchPrefixedTicks, ExecuteTicks, FinishExecute, InterruptTicks, FinishInterrupt, AnyPending;
  }

  /** A step that takes all it is offered takes the rest of what it needs from the next offer. */
  lemma StepResumes(isa: Isa, r: Runner, a: nat, b: nat)
    requires Inv(isa, r) && Calm(r) && 1 <= a && 1 <= b
    requires CanStep(r) && Step(isa, r, a).1 == a
    ensures var s := Step(isa, r, a).0; Inv(isa, s) && CanStep(s) && Resumes(isa, r, s, a, b)
  {
    hide *;
    StepKeeps(isa, r, a);
    var s := Step(isa, r, a).0;
    DispatchReady(isa, r);
    DispatchReady(isa, s);
    UnderWay(r);
    if r.phase == Halted {
      HaltResumes(isa, r, a, b);
    } else {
      Consumes(isa, r, a);
      MinAtMost(a, r.left);
      if Interruptible(r) {
        Enters(isa, r, a);
      }
      match r.phase {
        case FetchDecode => FetchResumes(isa, r, a, b);
        case FetchDecodePrefixed => FetchResumes(isa, r, a, b);
        case Interrupting => DispatchResumes(isa, r, a, b);
        case Halted =>
        case _ => ExecuteResumes(isa, r, a, b);
      }
    }
  }

  /** A step that leaves some of what it is offered does the same with any offer that is enough. */
  lemma StepEnough(isa: Isa, r: Runner, n: nat, m: nat)
    requires Inv(isa, r) && Calm(r) && CanStep(r)
    requires Step(isa, r, n).1 < n && Step(isa, r, n).1 <= m && 1 <= m
    ensures Step(isa, r, m).0 == Step(isa, r, n).0 && Step(isa, r, m).1 == Step(isa, r, n).1
  {
    hide Inv, Calm, AnyPending, Step, WokenInto, FetchTicks, FetchPrefixedTicks, ExecuteTicks, FinishExecute,
      InterruptTicks, FinishInterrupt, Interruptible, EnterInterrupt;
    UnderWay(r);
    if r.phase == Halted {
      if AnyPending(r.m.irqs) {
        WakesInto(isa, r, n);
        WakesInto(isa, r, m);
        CalmStep(isa, WokenInto(r), n);
        CalmStep(isa, WokenInto(r), m);
      } else {
        Sleeps(isa, r, n);
      }
    } else {
      CalmStep(isa, r, n);
      CalmStep(isa, r, m);
    }
  }

  // ---------------------------------------------------------------- runs

  lemma NoTicks(isa: Isa, r: Runner)
    requires Inv(isa, r)
    ensures Tick(isa, r, 0) == r
  {
    hide Inv;
  }

  /** A run that begins with the step made first. */
  lemma StepFirst(isa: Isa, r: Runner, s: Runner, n: nat, consumed: nat)
    requires Inv(isa, r) && CanStep(r) && 1 <= n
    requires Step(isa, r, n).0 == s && Step(isa, r, n).1 == consumed
    ensures Inv(isa, s) && consumed <= n && Tick(isa, r, n) == Tick(isa, s, n - consumed)
    ensures consumed == 0 ==> r.phase == Execute && s.phase == Interrupting
  {
    hide Inv, CanStep, Step;
    var _, _ := TickUnfolds(isa, r, n);
  }

  /** A call that ends inside a step, and the next one. */
  lemma CallThenMore(isa: Isa, r: Runner, a: nat, b: nat)
    requires Inv(isa, r) && Calm(r) && CanStep(r) && 1 <= a && Step(isa, r, a).1 == a
    ensures Tick(isa, r, a + b) == Tick(isa, Tick(isa, r, a), b)
  {
    hide *;
    var s := Step(isa, r, a).0;
    StepFirst(isa, r, s, a, a);
    NoTicks(isa, s);
    if b > 0 {
      StepResumes(isa, r, a, b);
      WholeStep(isa, r, s, a, b);
    } else {
      NoTicks(isa, Tick(isa, r, a));
      assert a + b == a;
    }
  }

  lemma WholeStep(isa: Isa, r: Runner, s: Runner, a: nat, b: nat)
    requires Inv(isa, r) && Inv(isa, s) && CanStep(r) && CanStep(s) && 1 <= a && 1 <= b && Resumes(isa, r, s, a, b)
    ensures Tick(isa, r, a + b) == Tick(isa, s, b)
  {
    hide Inv, CanStep, Step, Tick;
    var whole, rest := Step(isa, r, a + b), Step(isa, s, b);
    StepFirst(isa, r, whole.0, a + b, whole.1);
    StepFirst(isa, s, rest.0, b, rest.1);
  }

  /** Steadiness is that of the first step and of what follows it. */
  lemma SteadyAfter(isa: Isa, r: Runner, s: Runner, n: nat, consumed: nat)
    requires Inv(isa, r) && CanStep(r) && Steady(isa, r, n) && consumed < n
    requires Step(isa, r, n).0 == s && Step(isa, r, n).1 == consumed
    ensures Calm(r) && Inv(isa, s) && Steady(isa, s, n - consumed)
  {
    hide Inv, CanStep, Step, Tick, Calm;
    NoTicks(isa, r);
    assert Calm(Tick(isa, r, 0));
    StepFirst(isa, r, s, n, consumed);
    forall k: nat | k < n - consumed ensures Calm(Tick(isa, s, k)) {
      if consumed + k > 0 {
        StepEnough(isa, r, n, consumed + k);
        StepFirst(isa, r, s, consumed + k, consumed);
        assert Calm(Tick(isa, r, consumed + k));
      } else {
        EntersCalm(isa, r, s, n);
        NoTicks(isa, s);
      }
    }
  }

  lemma EntersCalm(isa: Isa, r: Runner, s: Runner, n: nat)
    requires Inv(isa, r) && CanStep(r) && Calm(r) && 1 <= n && Step(isa, r, n).0 == s && Step(isa, r, n).1 == 0
    ensures Calm(s)
  {
    StepFirst(isa, r, s, n, 0);
    hide Step, Inv, FetchTicks, FetchPrefixedTicks, ExecuteTicks, FinishExecute, InterruptTicks, FinishInterrupt,
      AnyPending, FirstPending;
    CalmStep(isa, r, n);
    Consumes(isa, r, n);
  }

  /** Over a steady stretch it makes no difference where the ticks are cut into calls. */
  lemma {:induction false} TickSplit(isa: Isa, r: Runner, a: nat, b: nat)
    requires Inv(isa, r) && Steady(isa, r, a)
    ensures Tick(isa, r, a + b) == Tick(isa, Tick(isa, r, a), b)
    decreases a, if r.phase == Execute then 1 else 0
  {
    hide *;
    NoTicks(isa, r);
    if a > 0 {
      DispatchReady(isa, r);
      StepKeeps(isa, r, a);
      var (s, consumed) := Step(isa, r, a);
      SteadyNow(isa, r, a);
      if consumed == a {
        CallThenMore(isa, r, a, b);
      } else {
        SteadyAfter(isa, r, s, a, consumed);
        StepFirst(isa, r, s, a, consumed);
        StepEnough(isa, r, a, a + b);
        StepFirst(isa, r, s, a + b, consumed);
        TickSplit(isa, s, a - consumed, b);
        assert a + b - consumed == a - consumed + b;
      }
    } else {
      assert 0 + b == b;
    }
  }

  lemma SteadyNow(isa: Isa, r: Runner, n: nat)
    requires Inv(isa, r) && Steady(isa, r, n) && n > 0
    ensures Calm(r)
  {
    hide Inv, Tick, Calm;
    NoTicks(isa, r);
    assert Calm(Tick(isa, r, 0));
  }

  // ---------------------------------------------------------------- steady stretches

  /** Part of the way through a step that has begun. */
  lemma PartCalm(isa: Isa, r: Runner, k: nat)
    requires Inv(isa, r) && Calm(r) && r.phase != Halted && !Interruptible(r) && 1 <= k < r.left
    ensures CanStep(r) && Step(isa, r, k).1 == k && Calm(Step(isa, r, k).0)
  {
    DispatchReady(isa, r);
    hide Step, FetchTicks, FetchPrefixedTicks, ExecuteTicks, FinishExecute, InterruptTicks, Interruptible, Inv,
      AnyPending;
    CalmStep(isa, r, k);
    match r.phase {
      case FetchDecode => FetchPart(isa, r, k);
      case FetchDecodePrefixed => FetchPart(isa, r, k);
      case Interrupting =>
        DispatchNeverArms(r, k);
        InterruptTicksKeep(r, k);
      case Halted =>
      case _ =>
        RunningNow(isa, r);
        PartWay(isa, r, k);
        Unfinished(isa, ExecuteTicks(isa, r, k));
    }
  }

  lemma FetchPart(isa: Isa, r: Runner, k: nat)
    requires k < r.left
    ensures FetchTicks(isa, r, k) == FetchPrefixedTicks(isa, r, k) == r.(left := r.left - k)
  {
  }

  /** A step once begun is steady. */
  lemma SteadyInStep(isa: Isa, r: Runner, n: nat)
    requires Inv(isa, r) && Calm(r) && r.phase != Halted && !Interruptible(r) && n <= r.left
    ensures Steady(isa, r, n)
  {
    hide Inv, Calm, Tick, Step, CanStep, Interruptible;
    forall k: nat | k < n ensures Calm(Tick(isa, r, k)) {
      NoTicks(isa, r);
      if k > 0 {
        PartCalm(isa, r, k);
        var s := Step(isa, r, k).0;
        StepFirst(isa, r, s, k, k);
        NoTicks(isa, s);
      }
    }
  }

  /** So is entering an interrupt, from a running program or from a halt. */
  lemma SteadyEnter(isa: Isa, r: Runner)
    requires Inv(isa, r) && Calm(r)
    requires Interruptible(r) || (r.phase == Halted && AnyPending(r.m.irqs))
    ensures Steady(isa, r, DISPATCH_TICKS)
  {
    var e := if Interruptible(r) then EnterInterrupt(r) else WokenInto(r);
    EntersAs(isa, r, 1);
    hide *;
    SteadyInStep(isa, e, DISPATCH_TICKS);
    EveryOffer(isa, r, e);
  }

  lemma EveryOffer(isa: Isa, r: Runner, e: Runner)
    requires Inv(isa, r) && Calm(r) && Inv(isa, e) && Steady(isa, e, DISPATCH_TICKS)
    requires Interruptible(r) || (r.phase == Halted && AnyPending(r.m.irqs))
    requires e == if Interruptible(r) then EnterInterrupt(r) else WokenInto(r)
    ensures Steady(isa, r, DISPATCH_TICKS)
  {
    hide Inv, Calm, Tick, Interruptible, EnterInterrupt, WokenInto, AnyPending;
    forall k: nat | k < DISPATCH_TICKS ensures Calm(Tick(isa, r, k)) {
      NoTicks(isa, r);
      if k > 0 {
        EntersAs(isa, r, k);
      }
    }
  }

  /** The state in which dispatch begins, which every offer of ticks goes through. */
  lemma EntersAs(isa: Isa, r: Runner, k: nat)
    requires Inv(isa, r) && Calm(r) && 1 <= k
    requires Interruptible(r) || (r.phase == Halted && AnyPending(r.m.irqs))
    ensures var e := if Interruptible(r) then EnterInterrupt(r) else WokenInto(r);
      && Inv(isa, e) && Calm(e) && e.phase == Interrupting && !Interruptible(e) && e.left == DISPATCH_TICKS
      && Tick(isa, r, k) == Tick(isa, e, k)
  {
    hide Inv, Step, CanStep, AnyPending, Tick, FirstPending;
    DispatchReady(isa, r);
    if Interruptible(r) {
      Enters(isa, r, k);
      StepFirst(isa, r, EnterInterrupt(r), k, 0);
    } else {
      WakesInto(isa, r, k);
      var e := WokenInto(r);
      var t := Step(isa, r, k);
      StepFirst(isa, r, t.0, k, t.1);
      StepFirst(isa, e, t.0, k, t.1);
    }
  }

  // ---------------------------------------------------------------- calls

  /** Any calls, one after the other, with nothing else happening in between. */
  ghost function Calls(isa: Isa, r: Runner, ns: seq<nat>): (s: Runner)
    requires Inv(isa, r)
    ensures Inv(isa, s)
  {
    if ns == [] then r else Tick(isa, Calls(isa, r, ns[..|ns| - 1]), ns[|ns| - 1])
  }

  lemma SteadyLess(isa: Isa, r: Runner, n: nat, m: nat)
    requires Inv(isa, r) && Steady(isa, r, n) && m <= n
    ensures Steady(isa, r, m)
  {
    hide Inv, Tick, Calm;
  }

  /** Steady stretches follow one another. */
  lemma SteadyJoins(isa: Isa, r: Runner, a: nat, b: nat)
    requires Inv(isa, r) && Steady(isa, r, a) && Steady(isa, Tick(isa, r, a), b)
    ensures Steady(isa, r, a + b)
  {
    hide Inv, Tick, Calm;
    forall k: nat | k < a + b ensures Calm(Tick(isa, r, k)) {
      if k >= a {
        TickSplit(isa, r, a, k - a);
        assert Calm(Tick(isa, Tick(isa, r, a), k - a));
      }
    }
  }

  /** However a steady stretch is cut into calls, it ends in the same state. */
  lemma {:induction false} CallsAreTicks(isa: Isa, r: Runner, ns: seq<nat>)
    requires Inv(isa, r) && Steady(isa, r, Sum(ns))
    ensures Calls(isa, r, ns) == Tick(isa, r, Sum(ns))
  {
    hide Inv, Tick, Steady;
    if ns == [] {
      NoTicks(isa, r);
    } else {
      var front := ns[..|ns| - 1];
      SteadyLess(isa, r, Sum(ns), Sum(front));
      CallsAreTicks(isa, r, front);
      TickSplit(isa, r, Sum(front), ns[|ns| - 1]);
    }
  }

  // ---------------------------------------------------------------- where cuts matter

  /** A halt left with the enable off: the next opcode has been fetched, however few ticks were offered. */
  function WokenFetch(isa: Isa, r: Runner): Runner {
    FetchTicks(isa, r.(phase := FetchDecode, left := 4, m := r.m.(cpu := r.m.cpu.(halted := false))), 4)
  }

  lemma WakeStep(isa: Isa, r: Runner, k: nat)
    requires Inv(isa, r) && r.phase == Halted && AnyPending(r.m.irqs) && !r.m.cpu.haltIme && r.m.cpu.imeDelay == 0
    requires 1 <= k
    ensures CanStep(r) && Step(isa, r, k).0 == WokenFetch(isa, r) && Step(isa, r, k).1 == Min(k, 4)
  {
    CalmStep(isa, r, k);
    hide Step, AnyPending, FetchTicks, Legal;
  }

  lemma JustFetched(isa: Isa, r: Runner)
    requires Inv(isa, r) && r.phase == Halted && r.m.cpu.imeDelay == 0
    ensures var s := WokenFetch(isa, r);
      && (s.phase == Execute || s.phase == FetchDecodePrefixed) && s.left >= 4 && s.m.cpu.imeDelay == 0
      && s.m.irqs == r.m.irqs
  {
    StepsInRange(isa, Fetch(r).m.cpu, Fetch(r).opcode);
    hide Steps, Read, Legal;
  }

  /** Whatever the offer, up to four ticks, waking does a whole fetch. */
  lemma WakeFetchesWhole(isa: Isa, r: Runner, k: nat)
    requires Inv(isa, r) && r.phase == Halted && AnyPending(r.m.irqs) && !r.m.cpu.haltIme && r.m.cpu.imeDelay == 0
    requires 1 <= k <= 4
    ensures Tick(isa, r, k) == WokenFetch(isa, r)
  {
    hide Inv, Step, CanStep, WokenFetch, AnyPending;
    WakeStep(isa, r, k);
    StepFirst(isa, r, WokenFetch(isa, r), k, k);
    NoTicks(isa, WokenFetch(isa, r));
  }

  lemma FirstTick(isa: Isa, r: Runner)
    requires Inv(isa, r) && Calm(r) && r.phase != Halted && !Interruptible(r) && r.left >= 2
    ensures Tick(isa, r, 1).left == r.left - 1 && Tick(isa, r, 1).phase == r.phase
  {
    DispatchReady(isa, r);
    PartCalm(isa, r, 1);
    var s := Step(isa, r, 1).0;
    StepFirst(isa, r, s, 1, 1);
    NoTicks(isa, s);
    FirstTickStep(isa, r);
    hide *;
  }

  lemma FirstTickStep(isa: Isa, r: Runner)
    requires Inv(isa, r) && Calm(r) && r.phase != Halted && !Interruptible(r) && r.left >= 2 && CanStep(r)
    ensures Step(isa, r, 1).0.left == r.left - 1 && Step(isa, r, 1).0.phase == r.phase
  {
    DispatchReady(isa, r);
    hide Step, FetchTicks, FetchPrefixedTicks, ExecuteTicks, FinishExecute, InterruptTicks, Interruptible, Inv,
      AnyPending;
    CalmStep(isa, r, 1);
    match r.phase {
      case FetchDecode => FetchPart(isa, r, 1);
      case FetchDecodePrefixed => FetchPart(isa, r, 1);
      case Interrupting => InterruptTicksKeep(r, 1);
      case Halted =>
      case _ =>
        RunningNow(isa, r);
        ExecuteTicksKeep(isa, r, 1);
        Unfinished(isa, ExecuteTicks(isa, r, 1));
    }
  }

  /** A tick of a fetched instruction, or of an interrupt that takes its place, does not stand still. */
  lemma TickMoves(isa: Isa, r: Runner)
    requires Inv(isa, r) && (r.phase == Execute || r.phase == FetchDecodePrefixed) && r.left >= 4
    requires r.m.cpu.imeDelay == 0
    ensures Tick(isa, r, 1) != r
  {
    hide Inv, Step, CanStep, EnterInterrupt, AnyPending, Tick;
    if Interruptible(r) {
      EntersAs(isa, r, 1);
      FirstTick(isa, EnterInterrupt(r));
    } else {
      FirstTick(isa, r);
    }
  }

  /** So two ticks offered at once are not two offered one by one. */
  lemma WakeNotSplit(isa: Isa, r: Runner)
    requires Inv(isa, r) && r.phase == Halted && AnyPending(r.m.irqs) && !r.m.cpu.haltIme && r.m.cpu.imeDelay == 0
    ensures Tick(isa, r, 2) != Tick(isa, Tick(isa, r, 1), 1)
  {
    hide Inv, WokenFetch, AnyPending, Tick;
    WakeFetchesWhole(isa, r, 1);
    WakeFetchesWhole(isa, r, 2);
    JustFetched(isa, r);
    TickMoves(isa, WokenFetch(isa, r));
  }
}
