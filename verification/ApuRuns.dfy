/** Whole runs of the audio unit: any register writes between any calls. */
module ApuRuns {
  import opened Common
  import opened ApuChannels
  import opened Resampler
  import opened Apu

  datatype Action =
    | WriteRegister(register: Register, value: byte)
    | WriteRam(index: nibble, value: byte)
    | Ticks(divider: word, n: nat)

  function Act(a: Apu, rate: nat, action: Action): (Apu, seq<Levels>)
    requires Inv(a) && 1 <= rate <= MASTER_CLOCK
  {
    match action
    case WriteRegister(r, v) => (Write(a, r, v), [])
    case WriteRam(i, v) => (a.(channels := a.channels.(ram := a.channels.ram[i := v])), [])
    case Ticks(divider, n) => Tick(a, rate, divider, n)
  }

  function TicksIn(action: Action): nat {
    if action.Ticks? then action.n else 0
  }

  lemma WriteLeavesAccumulator(a: Apu, r: Register, v: byte)
    ensures Write(a, r, v).accumulator == a.accumulator
  {
    hide PulseSweepConfig, PulseSetLength, PulseSetEnvelope, PulseSetLow, PulseControl, WaveSetDac, WaveSetLength,
      WaveSetLevel, WaveSetLow, WaveControl, WavePrepared, NoiseSetLength, NoiseSetEnvelope, NoiseSetRandomness,
      NoiseControl, Bit, EnvelopeOf, SweepOf, NextSkipsLength, Spoiled, DacOn;
  }

  /** One call emits exactly the samples its ticks are worth. */
  lemma TickExact(a: Apu, rate: nat, divider: word, n: nat)
    requires Inv(a) && 1 <= rate <= MASTER_CLOCK
    ensures var (b, samples) := Tick(a, rate, divider, n);
      && |samples| == (a.accumulator + n * rate) / MASTER_CLOCK
      && b.accumulator == (a.accumulator + n * rate) % MASTER_CLOCK
  {
    FrameKeeps(a, divider);
    AdvanceIsAdditive();
    NoDrift<Sound, Levels>(Advance, Hear, rate, Start(Frame(a, divider)), n);
    hide Advance, FrameStep, Play, PulseOk, WaveOk, NoiseOk, Additive;
  }

  /** Sample `i` of a call is what the channels, after the frame step, sound like at its instant. */
  lemma TickInstants(a: Apu, rate: nat, divider: word, n: nat, i: nat)
    requires Inv(a) && 1 <= rate <= MASTER_CLOCK && i < |Tick(a, rate, divider, n).1|
    ensures Inv(Frame(a, divider)) && Instant(a.accumulator, rate, i) >= 0
    ensures Tick(a, rate, divider, n).1[i] == Hear(Advance(Frame(a, divider).channels, Instant(a.accumulator, rate, i)))
  {
    FrameKeeps(a, divider);
    AdvanceIsAdditive();
    Instants<Sound, Levels>(Advance, Hear, rate, Start(Frame(a, divider)), n);
    hide Advance, FrameStep, Play, PulseOk, WaveOk, NoiseOk, Additive, Instant, Hear;
    var s, t := Start(Frame(a, divider)), Play<Sound, Levels>(Advance, Hear, rate, Start(Frame(a, divider)), n);
    assert OnTime(Advance, Hear, rate, s, i - |s.samples|, t.samples[i]);
  }

  /** What the four-bit converters can take. */
  predicate Fits(l: Levels) {
    l.ch1 <= 15 && l.ch2 <= 15 && l.ch3 <= 15 && l.ch4 <= 15
  }

  lemma LevelsFit(c: Sound)
    ensures Fits(Hear(c))
  {
  }

  lemma TickFits(a: Apu, rate: nat, divider: word, n: nat)
    requires Inv(a) && 1 <= rate <= MASTER_CLOCK
    ensures forall l <- Tick(a, rate, divider, n).1 :: Fits(l)
  {
    hide Tick, Advance, Hear, Fits, Instant, Frame, Inv;
    FrameKeeps(a, divider);
    InvChannels(Frame(a, divider));
    var samples := Tick(a, rate, divider, n).1;
    forall i | 0 <= i < |samples| ensures Fits(samples[i]) {
      TickInstants(a, rate, divider, n, i);
      LevelsFit(Advance(Frame(a, divider).channels, Instant(a.accumulator, rate, i)));
    }
  }

  lemma ActKeeps(a: Apu, rate: nat, action: Action)
    requires Inv(a) && 1 <= rate <= MASTER_CLOCK
    ensures var (b, samples) := Act(a, rate, action);
      && Inv(b)
      && |samples| == (a.accumulator + TicksIn(action) * rate) / MASTER_CLOCK
      && b.accumulator == (a.accumulator + TicksIn(action) * rate) % MASTER_CLOCK
  {
    hide Write, Tick, PulseOk, WaveOk, NoiseOk;
    match action {
      case WriteRegister(r, v) =>
        WriteKeeps(a, r, v);
        WriteLeavesAccumulator(a, r, v);
      case WriteRam(_, _) =>
      case Ticks(divider, n) =>
        TickKeeps(a, rate, divider, n);
        TickExact(a, rate, divider, n);
    }
  }

  /** The state and all samples after a run, the last action made last. */
  function RunAll(a: Apu, rate: nat, actions: seq<Action>): (r: (Apu, seq<Levels>))
    requires Inv(a) && 1 <= rate <= MASTER_CLOCK
    ensures Inv(r.0)
  {
    if actions == [] then (a, [])
    else
      var before := RunAll(a, rate, actions[..|actions| - 1]);
      ActKeeps(before.0, rate, actions[|actions| - 1]);
      var (b, samples) := Act(before.0, rate, actions[|actions| - 1]);
      (b, before.1 + samples)
  }

  function TotalTicks(actions: seq<Action>): nat {
    if actions == [] then 0 else TotalTicks(actions[..|actions| - 1]) + TicksIn(actions[|actions| - 1])
  }

  lemma Carry(start: nat, before: nat, more: nat, rate: nat)
    ensures ((start + before * rate) % MASTER_CLOCK + more * rate) % MASTER_CLOCK
      == (start + (before + more) * rate) % MASTER_CLOCK
    ensures (start + before * rate) / MASTER_CLOCK
      + ((start + before * rate) % MASTER_CLOCK + more * rate) / MASTER_CLOCK
         == (start + (before + more) * rate) / MASTER_CLOCK
  {
    Distribute(before, more, rate);
    var x, y := start + before * rate, more * rate;
    var q, r := x / MASTER_CLOCK, x % MASTER_CLOCK;
    var p, s := (r + y) / MASTER_CLOCK, (r + y) % MASTER_CLOCK;
    Quotient(x + y, MASTER_CLOCK, q + p, s);
  }

  /** Over every run of calls and register writes: every reload stays positive, every sounding channel
      has its converter on, and the number of samples is exactly the elapsed time at the output rate,
      however long the run and however its ticks are cut into calls. */
  lemma {:induction false} RunExact(a: Apu, rate: nat, actions: seq<Action>)
    requires Inv(a) && 1 <= rate <= MASTER_CLOCK
    ensures var (b, samples) := RunAll(a, rate, actions);
      && Inv(b)
      && |samples| == (a.accumulator + TotalTicks(actions) * rate) / MASTER_CLOCK
      && b.accumulator == (a.accumulator + TotalTicks(actions) * rate) % MASTER_CLOCK
  {
    hide Inv, Act;
    if actions == [] {
      AccumulatorBelow(a);
    } else {
      var front, last := actions[..|actions| - 1], actions[|actions| - 1];
      RunExact(a, rate, front);
      ActKeeps(RunAll(a, rate, front).0, rate, last);
      Carry(a.accumulator, TotalTicks(front), TicksIn(last), rate);
    }
  }

  lemma AccumulatorBelow(a: Apu)
    requires Inv(a)
    ensures a.accumulator < MASTER_CLOCK
  {
  }

  /** A converter is never handed a level it cannot take, in any run. */
  lemma {:induction false} RunFits(a: Apu, rate: nat, actions: seq<Action>)
    requires Inv(a) && 1 <= rate <= MASTER_CLOCK
    ensures forall l <- RunAll(a, rate, actions).1 :: Fits(l)
  {
    hide Inv, Tick, Write, Fits;
    if actions != [] {
      var front, last := actions[..|actions| - 1], actions[|actions| - 1];
      RunFits(a, rate, front);
      if last.Ticks? {
        TickFits(RunAll(a, rate, front).0, rate, last.divider, last.n);
      }
    }
  }

  lemma PowerOnOk()
    ensures Inv(POWER_ON)
  {
  }

  /** The machine as switched on: over any run, the samples emitted are the elapsed ticks at the output
      rate, rounded down, and each fits its converter. */
  lemma RunFromPowerOn(rate: nat, actions: seq<Action>)
    requires 1 <= rate <= MASTER_CLOCK
    ensures Inv(POWER_ON)
    ensures var samples := RunAll(POWER_ON, rate, actions).1;
      |samples| == TotalTicks(actions) * rate / MASTER_CLOCK && forall l <- samples :: Fits(l)
  {
    hide Inv, RunAll, Fits;
    PowerOnOk();
    RunExact(POWER_ON, rate, actions);
    RunFits(POWER_ON, rate, actions);
  }

  // ---------------------------------------------------------------- splitting a call

  lemma FrameSeen(a: Apu, divider: word)
    ensures Frame(a, divider).previousDivider == divider && 0 <= Frame(a, divider).counter < 8
  {
    hide FrameStep;
  }

  lemma FrameIdle(a: Apu, divider: word)
    requires a.previousDivider == divider && 0 <= a.counter < 8
    ensures Frame(a, divider) == a
  {
    hide FrameStep;
  }

  /** While the divider does not move, one call is the same as two. */
  lemma TickSplit(a: Apu, rate: nat, divider: word, m: nat, n: nat)
    requires Inv(a) && 1 <= rate <= MASTER_CLOCK
    ensures var (b, first) := Tick(a, rate, divider, m);
      && Inv(b)
      && var (c, second) := Tick(b, rate, divider, n);
      && Tick(a, rate, divider, m + n) == (c, first + second)
  {
    FrameKeeps(a, divider);
    FrameSeen(a, divider);
    TickKeeps(a, rate, divider, m);
    AdvanceIsAdditive();
    hide Advance, Hear, Frame, Play, PulseOk, WaveOk, NoiseOk, Additive;
    var f := Frame(a, divider);
    PlaySplit<Sound, Levels>(Advance, Hear, rate, Start(f), m, n);
    PlayAppends<Sound, Levels>(Advance, Hear, rate, Play<Sound, Levels>(Advance, Hear, rate, Start(f), m), n);
    FrameIdle(Tick(a, rate, divider, m).0, divider);
  }
}
