/** Ticks of execution and of dispatch taken a machine cycle at a time. */
module CpuChunks {
  import opened CpuModel
  import opened CpuRunner

  function Later(r: Runner, k: nat): Runner
    requires k <= r.left && r.cycle + k < 0x100
  {
    r.(cycle := r.cycle + k, left := r.left - k)
  }

  lemma InsideCycle(cycle: nat, k: nat)
    requires 1 <= k && cycle % 4 + k <= 4
    ensures (cycle + k) % 4 == 0 <==> cycle % 4 + k == 4
  {
  }

  // ---------------------------------------------------------------- execution

  lemma ExecuteTicksNext(isa: Isa, r: Runner, k: nat)
    ensures ExecuteTicks(isa, r, 0) == r && ExecuteTicks(isa, r, k + 1) == ExecuteTick(isa, ExecuteTicks(isa, r, k))
  {
    hide ExecuteTick;
  }

  lemma ExecuteTickAt(isa: Isa, r: Runner, k: nat)
    requires r.cycle + k < 0xFF && k < r.left
    ensures var s := Later(r, k + 1);
      ExecuteTick(isa, Later(r, k)) == if (r.cycle + k + 1) % 4 == 0 then RunStep(isa, s, s.cycle / 4 - 1) else s
  {
    hide RunStep;
  }

  lemma {:induction false} QuietExecute(isa: Isa, r: Runner, k: nat)
    requires r.cycle % 4 + k < 4 && r.cycle < 0x80 && k <= r.left
    ensures ExecuteTicks(isa, r, k) == Later(r, k)
  {
    hide ExecuteTicks, ExecuteTick, RunStep;
    ExecuteTicksNext(isa, r, if k > 0 then k - 1 else 0);
    if k > 0 {
      InsideCycle(r.cycle, k);
      QuietExecute(isa, r, k - 1);
      ExecuteTickAt(isa, r, k - 1);
    }
  }

  /** A chunk up to the next boundary is its ticks one by one, the last of which runs a step. */
  lemma ChunkExecutes(isa: Isa, r: Runner, k: nat)
    requires r.cycle < 0x80 && 1 <= k <= r.left && r.cycle % 4 + k <= 4
    ensures ExecuteTicks(isa, r, k) ==
      if (r.cycle + k) % 4 == 0 then RunStep(isa, Later(r, k), (r.cycle + k) / 4 - 1) else Later(r, k)
  {
    hide ExecuteTicks, ExecuteTick, RunStep;
    QuietExecute(isa, r, k - 1);
    ExecuteTicksNext(isa, r, k - 1);
    ExecuteTickAt(isa, r, k - 1);
  }

  // ---------------------------------------------------------------- dispatch

  lemma InterruptTicksNext(r: Runner, k: nat)
    requires r.irq.Some?
    ensures InterruptTicks(r, 0) == r && InterruptTicks(r, k + 1) == InterruptTick(InterruptTicks(r, k))
  {
    hide InterruptTick;
  }

  lemma InterruptTickAt(r: Runner, k: nat)
    requires r.irq.Some? && r.cycle + k < 0xFF && k < r.left
    ensures var s := Later(r, k + 1);
      InterruptTick(Later(r, k)) == if (r.cycle + k + 1) % 4 == 0 then RunDispatch(s, s.cycle / 4 - 1) else s
  {
    hide RunDispatch;
  }

  lemma {:induction false} QuietDispatch(r: Runner, k: nat)
    requires r.irq.Some? && r.cycle % 4 + k < 4 && r.cycle < 0x80 && k <= r.left
    ensures InterruptTicks(r, k) == Later(r, k)
  {
    hide InterruptTicks, InterruptTick, RunDispatch;
    InterruptTicksNext(r, if k > 0 then k - 1 else 0);
    if k > 0 {
      InsideCycle(r.cycle, k);
      QuietDispatch(r, k - 1);
      InterruptTickAt(r, k - 1);
    }
  }

  lemma ChunkDispatches(r: Runner, k: nat)
    requires r.irq.Some? && r.cycle < 0x80 && 1 <= k <= r.left && r.cycle % 4 + k <= 4
    ensures InterruptTicks(r, k) ==
      if (r.cycle + k) % 4 == 0 then RunDispatch(Later(r, k), (r.cycle + k) / 4 - 1) else Later(r, k)
  {
    hide InterruptTicks, InterruptTick, RunDispatch;
    QuietDispatch(r, k - 1);
    InterruptTicksNext(r, k - 1);
    InterruptTickAt(r, k - 1);
  }

  lemma {:induction false} InterruptTicksSplit(r: Runner, j: nat, k: nat)
    requires r.irq.Some?
    ensures InterruptTicks(r, j + k) == InterruptTicks(InterruptTicks(r, j), k)
  {
    hide InterruptTick;
    if k > 0 {
      InterruptTicksSplit(r, j, k - 1);
    }
  }

  lemma {:induction false} ExecuteTicksSplit(isa: Isa, r: Runner, j: nat, k: nat)
    ensures ExecuteTicks(isa, r, j + k) == ExecuteTicks(isa, ExecuteTicks(isa, r, j), k)
  {
    hide ExecuteTick;
    if k > 0 {
      ExecuteTicksSplit(isa, r, j, k - 1);
    }
  }
}
