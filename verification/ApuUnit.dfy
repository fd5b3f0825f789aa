/** The sound channels and the audio unit as the program has them: objects whose fields change in
    place, with loops that count timers down in stretches. */
module ApuUnit {
  import opened Common
  import opened Clocked
  import opened ApuChannels
  import opened ApuTiming
  import opened Resampler
  import opened Apu
  import Audio = Apu

  /** One turn of a channel's loop. */
  lemma RunUnfolds<C>(fire: C -> C, reload: nat, s: Clocked<C>, n: nat)
    requires reload >= 1
    ensures Run(fire, reload, s, 0) == s
    ensures n > 0 ==>
      var left := s.timer - Min(n, s.timer);
      Run(fire, reload, s, n)
        == Run(
          fire, reload, if left == 0 then Clocked(reload, fire(s.core)) else Clocked(left, s.core), n - Min(n, s.timer))
  {
  }

  class PulseChannel {
    var enabled: bool
    var currentOutput: nat
    var sweep: Sweep
    var length: Length
    var duty: Duty
    var envelope: Envelope
    var initialPeriod: word
    var currentPeriod: word
    var dutyStep: octal
    var dutyTimer: nat

    ghost function State(): Pulse
      reads this
    {
      Pulse(enabled, currentOutput, sweep, length, duty, envelope, initialPeriod, currentPeriod, dutyStep, dutyTimer)
    }

    constructor ()
      ensures State() == SILENT_PULSE && PulseInv(State())
    {
      enabled, currentOutput := false, 0;
      sweep := Sweep(SweepConfig(0, false, 0), false, false, 0, 0);
      length, duty, envelope := Length(false, 0, 0), Duty12, Off(QUIET);
      initialPeriod, currentPeriod, dutyStep, dutyTimer := 0, 0, 0, 0;
    }

    method Reset()
      modifies this
      ensures State() == SILENT_PULSE
    {
      enabled, currentOutput := false, 0;
      sweep := Sweep(SweepConfig(0, false, 0), false, false, 0, 0);
      length, duty, envelope := Length(false, 0, 0), Duty12, Off(QUIET);
      initialPeriod, currentPeriod, dutyStep, dutyTimer := 0, 0, 0, 0;
    }

    method Output() returns (level: nat)
      ensures level == PulseOutput(State())
      ensures PulseInv(State()) ==> level <= 15
    {
      level := if enabled then currentOutput else 0;
    }

    method SetSweepConfig(config: SweepConfig)
      modifies this
      ensures State() == PulseSweepConfig(old(State()), config)
    {
      var wasInSubMode := sweep.config.subtraction;
      sweep := sweep.(config := config);
      if wasInSubMode && !config.subtraction && sweep.doneInSubMode {
        enabled := false;
      }
    }

    method Trigger()
      requires initialPeriod <= MAX_PERIOD
      modifies this
      ensures State() == PulseTrigger(old(State()))
    {
      hide Shifted;
      enabled := true;
      length := LengthTrigger(length, PULSE_LENGTH);
      currentPeriod := initialPeriod;
      envelope := EnvelopeReset(envelope);
      sweep := SweepReset(sweep, currentPeriod);
      dutyTimer := (2048 - currentPeriod) * 4;
      if sweep.config.step != 0 {
        var frequency := Frequency(sweep);
        sweep := Computed(sweep);
        enabled := !(frequency > MAX_PERIOD);
      }
    }

    method TickEnvelope()
      modifies this
      ensures State() == old(State()).(envelope := EnvelopeTick(old(State()).envelope))
    {
      envelope := EnvelopeTick(envelope);
    }

    method TickLengthTimer()
      modifies this
      ensures State() == PulseLengthTick(old(State()))
    {
      if length.enabled {
        length := LengthTick(length);
        if length.current == 0 {
          enabled := false;
        }
      }
    }

    method TickSweep()
      requires PulseInv(State())
      modifies this
      ensures State() == PulseSweepTick(old(State())) && PulseInv(State())
    {
      hide Shifted;
      var (ticked, zero) := SweepTick(sweep);
      sweep := ticked;
      if zero && sweep.enabled && sweep.config.pace != 0 {
        var frequency := Frequency(sweep);
        sweep := Computed(sweep);
        var overflow := frequency > MAX_PERIOD;
        if overflow {
          enabled := false;
        }
        if !overflow && sweep.config.step != 0 {
          sweep := sweep.(shadow := frequency);
          initialPeriod := frequency;
          var next := Frequency(sweep);
          sweep := Computed(sweep);
          if next > MAX_PERIOD {
            enabled := false;
          }
        }
      }
    }

    method AdvanceWaveform()
      requires currentPeriod <= MAX_PERIOD
      modifies this
      ensures State() == PulseFire(old(State())).(dutyTimer := PulseReload(old(State())))
    {
      currentOutput := Bit(Waveform(duty), dutyStep) * envelope.volume;
      dutyTimer := (2048 - currentPeriod) * 4;
      dutyStep := (dutyStep + 1) % 8;
    }

    lemma FireIgnoresTimer()
      ensures PulseFire(Core().core).dutyTimer == 0
      ensures PulseFire(Core().core) == PulseFire(State()).(dutyTimer := 0)
      ensures PulseFire(State()).currentPeriod == currentPeriod
    {
    }

    ghost function Core(): Clocked<Pulse>
      reads this
    {
      Clocked(dutyTimer, State().(dutyTimer := 0))
    }

    /** The timer loop; it ends because every reload is positive. */
    method Tick(numTicks: nat)
      requires PulseInv(State())
      modifies this
      ensures State() == PulseTicks(old(State()), numTicks) && PulseInv(State())
    {
      PulseTicksKeep(State(), numTicks);
      ghost var reload := PulseReload(State());
      ghost var start := Core();
      hide Run, PulseFire;
      var remaining := numTicks;
      RunUnfolds(PulseFire, reload, start, 0);
      while remaining > 0
        invariant 0 <= remaining <= numTicks && currentPeriod == old(currentPeriod)
        invariant Run(PulseFire, reload, Core(), remaining) == Run(PulseFire, reload, start, numTicks)
        decreases remaining, if dutyTimer == 0 then 1 else 0
      {
        RunUnfolds(PulseFire, reload, Core(), remaining);
        var consumed := Min(remaining, dutyTimer);
        remaining := remaining - consumed;
        dutyTimer := dutyTimer - consumed;
        FireIgnoresTimer();
        if dutyTimer == 0 {
          AdvanceWaveform();
        }
      }
      RunUnfolds(PulseFire, reload, Core(), 0);
    }
  }

  class WaveChannel {
    var enabled: bool
    var currentOutput: nat
    var length: Length
    var initialPeriod: word
    var currentPeriod: word
    var initialVolume: Level
    var currentVolume: Level
    var waveRamIndex: waveIndex
    var waveTimer: nat

    ghost function State(): Wave
      reads this
    {
      Wave(enabled, currentOutput, length, initialPeriod, currentPeriod, initialVolume, currentVolume, waveRamIndex,
        waveTimer)
    }

    constructor ()
      ensures State() == SILENT_WAVE && WaveInv(State())
    {
      enabled, currentOutput, length := false, 0, Length(false, 0, 0);
      initialPeriod, currentPeriod, initialVolume, currentVolume := 0, 0, Mute, Mute;
      waveRamIndex, waveTimer := 0, 0;
    }

    method Reset()
      modifies this
      ensures State() == SILENT_WAVE
    {
      enabled, currentOutput, length := false, 0, Length(false, 0, 0);
      initialPeriod, currentPeriod, initialVolume, currentVolume := 0, 0, Mute, Mute;
      waveRamIndex, waveTimer := 0, 0;
    }

    method Output() returns (level: nat)
      ensures level == WaveOutput(State())
      ensures WaveInv(State()) ==> level <= 15
    {
      level := if enabled then currentOutput else 0;
    }

    method Trigger()
      requires initialPeriod <= MAX_PERIOD
      modifies this
      ensures State() == WaveTrigger(old(State()))
    {
      enabled := true;
      length := LengthTrigger(length, WAVE_LENGTH);
      currentPeriod := initialPeriod;
      currentVolume := initialVolume;
      waveRamIndex := 1;
      waveTimer := (2048 - currentPeriod) * 2 + 7;
    }

    method TickLengthTimer()
      modifies this
      ensures State() == WaveLengthTick(old(State()))
    {
      if length.enabled {
        length := LengthTick(length);
        if length.current == 0 {
          enabled := false;
        }
      }
    }

    method ReadSample(ram: WaveRam)
      requires initialPeriod <= MAX_PERIOD
      modifies this
      ensures State() == WaveFire(ram)(old(State())).(timer := WaveReload(old(State())))
    {
      currentPeriod := initialPeriod;
      waveTimer := (2048 - currentPeriod) * 2;
      currentOutput := ApplyVolume(Nibble(ram, waveRamIndex), currentVolume);
      waveRamIndex := (waveRamIndex + 1) % 32;
    }

    lemma FireIgnoresTimer(ram: WaveRam)
      ensures WaveFire(ram)(Core().core).timer == 0
      ensures WaveFire(ram)(Core().core) == WaveFire(ram)(State()).(timer := 0)
      ensures WaveFire(ram)(State()).initialPeriod == initialPeriod
    {
      hide Nibble, ApplyVolume;
    }

    ghost function Core(): Clocked<Wave>
      reads this
    {
      Clocked(waveTimer, State().(timer := 0))
    }

    method Tick(numTicks: nat, ram: WaveRam)
      requires WaveInv(State())
      modifies this
      ensures State() == WaveTicks(ram, old(State()), numTicks) && WaveInv(State())
    {
      WaveTicksKeep(ram, State(), numTicks);
      ghost var reload, fire := WaveReload(State()), WaveFire(ram);
      ghost var start := Core();
      hide Run, WaveFire;
      var remaining := numTicks;
      RunUnfolds(fire, reload, start, 0);
      while remaining > 0
        invariant 0 <= remaining <= numTicks && initialPeriod == old(initialPeriod)
        invariant Run(fire, reload, Core(), remaining) == Run(fire, reload, start, numTicks)
        decreases remaining, if waveTimer == 0 then 1 else 0
      {
        RunUnfolds(fire, reload, Core(), remaining);
        var consumed := Min(remaining, waveTimer);
        waveTimer := waveTimer - consumed;
        remaining := remaining - consumed;
        FireIgnoresTimer(ram);
        if waveTimer == 0 {
          ReadSample(ram);
        }
      }
      RunUnfolds(fire, reload, Core(), 0);
    }
  }

  class NoiseChannel {
    var enabled: bool
    var currentOutput: nat
    var length: Length
    var envelope: Envelope
    var randomness: Randomness
    var lfsr: bv16
    var lfsrTimer: nat

    ghost function State(): Noise
      reads this
    {
      Noise(enabled, currentOutput, length, envelope, randomness, lfsr, lfsrTimer)
    }

    constructor ()
      ensures State() == SILENT_NOISE && NoiseInv(State())
    {
      enabled, currentOutput, length := false, 0, Length(false, 0, 0);
      envelope, randomness, lfsr, lfsrTimer := Off(QUIET), Randomness(0, false, 0), 0, 0;
    }

    method Reset()
      modifies this
      ensures State() == SILENT_NOISE
    {
      enabled, currentOutput, length := false, 0, Length(false, 0, 0);
      envelope, randomness, lfsr, lfsrTimer := Off(QUIET), Randomness(0, false, 0), 0, 0;
    }

    method Output() returns (level: nat)
      ensures level == NoiseOutput(State())
      ensures NoiseInv(State()) ==> level <= 15
    {
      level := if enabled then currentOutput else 0;
    }

    method Trigger()
      modifies this
      ensures State() == NoiseTrigger(old(State()))
    {
      enabled := true;
      length := LengthTrigger(length, NOISE_LENGTH);
      envelope := EnvelopeReset(envelope);
      lfsr := 0;
      lfsrTimer := NoisePeriod(randomness);
    }

    method TickEnvelope()
      modifies this
      ensures State() == old(State()).(envelope := EnvelopeTick(old(State()).envelope))
    {
      envelope := EnvelopeTick(envelope);
    }

    method TickLengthTimer()
      modifies this
      ensures State() == NoiseLengthTick(old(State()))
    {
      if length.enabled {
        length := LengthTick(length);
        if length.current == 0 {
          enabled := false;
        }
      }
    }

    method ShiftRegister()
      modifies this
      ensures State() == NoiseFire(old(State())).(timer := NoisePeriod(old(State()).randomness))
    {
      lfsr := NextLfsr(lfsr, randomness.narrow);
      currentOutput := if lfsr & 1 == 0 then envelope.volume else 0;
      lfsrTimer := NoisePeriod(randomness);
    }

    lemma FireIgnoresTimer()
      ensures NoiseFire(Core().core).timer == 0
      ensures NoiseFire(Core().core) == NoiseFire(State()).(timer := 0)
      ensures NoiseFire(State()).randomness == randomness
    {
      hide NextLfsr;
    }

    ghost function Core(): Clocked<Noise>
      reads this
    {
      Clocked(lfsrTimer, State().(timer := 0))
    }

    method Tick(numTicks: nat)
      requires NoiseInv(State())
      modifies this
      ensures State() == NoiseTicks(old(State()), numTicks) && NoiseInv(State())
    {
      NoiseTicksKeep(State(), numTicks);
      ghost var reload := NoisePeriod(randomness);
      ghost var start := Core();
      hide Run, NoiseFire, NoisePeriod;
      var remaining := numTicks;
      RunUnfolds(NoiseFire, reload, start, 0);
      while remaining > 0
        invariant 0 <= remaining <= numTicks && randomness == old(randomness)
        invariant Run(NoiseFire, reload, Core(), remaining) == Run(NoiseFire, reload, start, numTicks)
        decreases remaining, if lfsrTimer == 0 then 1 else 0
      {
        RunUnfolds(NoiseFire, reload, Core(), remaining);
        var consumed := Min(remaining, lfsrTimer);
        lfsrTimer := lfsrTimer - consumed;
        remaining := remaining - consumed;
        FireIgnoresTimer();
        if lfsrTimer == 0 {
          ShiftRegister();
        }
      }
      RunUnfolds(NoiseFire, reload, Core(), 0);
    }
  }

  class AudioProcessingUnit {
    const channel1: PulseChannel
    const channel2: PulseChannel
    const channel3: WaveChannel
    const channel4: NoiseChannel

    var enabled: bool
    var divCounter: int
    var previousDivider: word
    var dac1: bool
    var dac2: bool
    var dac3: bool
    var dac4: bool
    var tickAccumulator: nat
    var waveRam: WaveRam

    /** Every sample handed to the sink. */
    var written: seq<Levels>

    ghost predicate Valid()
      reads this
    {
      channel1 != channel2
    }

    ghost function Repr(): set<object>
    {
      {this, channel1, channel2, channel3, channel4}
    }

    ghost function Voices(): Channels
      reads this, channel1, channel2, channel3, channel4
    {
      Channels(channel1.State(), channel2.State(), channel3.State(), channel4.State(), waveRam)
    }

    ghost function State(): Apu
      reads this, channel1, channel2, channel3, channel4
    {
      Apu(enabled, divCounter, previousDivider, Voices(), dac1, dac2, dac3, dac4, tickAccumulator)
    }

    constructor ()
      ensures Valid() && fresh(channel1) && fresh(channel2) && fresh(channel3) && fresh(channel4)
      ensures State() == POWER_ON && Inv(State()) && written == []
    {
      channel1 := new PulseChannel();
      channel2 := new PulseChannel();
      channel3 := new WaveChannel();
      channel4 := new NoiseChannel();
      enabled, divCounter, previousDivider := true, -1, 0;
      dac1, dac2, dac3, dac4 := false, false, false, false;
      tickAccumulator, waveRam, written := 0, BLANK_RAM, [];
    }

    method TickLengthTimers()
      requires Valid()
      modifies channel1, channel2, channel3, channel4
      ensures Voices() == TickLengths(old(Voices()))
    {
      hide PulseLengthTick, WaveLengthTick, NoiseLengthTick;
      channel1.TickLengthTimer();
      channel2.TickLengthTimer();
      channel3.TickLengthTimer();
      channel4.TickLengthTimer();
    }

    method TickEnvelopeSweep()
      requires Valid()
      modifies channel1, channel2, channel4
      ensures Voices() == TickEnvelopes(old(Voices()))
    {
      hide EnvelopeTick;
      channel1.TickEnvelope();
      channel2.TickEnvelope();
      channel4.TickEnvelope();
    }

    /** Whether the divider's bit 12 has fallen since the last look. */
    method TickDivider(divider: word) returns (advances: bool)
      modifies this`divCounter, this`previousDivider
      ensures advances == (old(previousDivider) / 0x1000 % 2 == 1 && divider / 0x1000 % 2 == 0)
      ensures divCounter == (old(divCounter) + if advances then 1 else 0) % 8 && previousDivider == divider
    {
      advances := previousDivider / 0x1000 % 2 == 1 && divider / 0x1000 % 2 == 0;
      previousDivider := divider;
      divCounter := (divCounter + if advances then 1 else 0) % 8;
    }

    method TickFrameSequencer(divider: word)
      requires Valid() && PulseInv(channel1.State())
      modifies Repr()
      ensures State() == Frame(old(State()), divider) && written == old(written)
    {
      hide TickLengths, TickEnvelopes, PulseSweepTick;
      var advances := TickDivider(divider);
      if !advances {
        return;
      }
      assert TickLengths(Voices()).ch1 == PulseLengthTick(channel1.State()) by { FirstAfterLengths(Voices()); }
      LengthTickKeeps(channel1.State());
      match divCounter
      case 0 => TickLengthTimers();
      case 2 => TickLengthTimers(); channel1.TickSweep();
      case 4 => TickLengthTimers();
      case 6 => TickLengthTimers(); channel1.TickSweep();
      case 7 => TickEnvelopeSweep();
      case _ =>
    }

    method GenerateSample() returns (levels: Levels)
      requires ChannelsInv(Voices())
      ensures levels == Hear(Voices())
    {
      var first := channel1.Output();
      var second := channel2.Output();
      var third := channel3.Output();
      var fourth := channel4.Output();
      levels := Levels(first, second, third, fourth);
    }

    method TickVoices(n: nat)
      requires Valid() && ChannelsInv(Voices())
      modifies channel1, channel2, channel3, channel4
      ensures ChannelsInv(Voices()) && Voices() == Advance(old(Voices()), n)
    {
      hide PulseTicks, WaveTicks, NoiseTicks, PulseInv, WaveInv, NoiseInv;
      channel1.Tick(n);
      channel2.Tick(n);
      channel3.Tick(n, waveRam);
      channel4.Tick(n);
    }

    ghost function Now(): Played<Sound, Levels>
      requires ChannelsInv(Voices())
      reads this, channel1, channel2, channel3, channel4
    {
      var sound: Sound := Voices();
      Played<Sound, Levels>.Played(tickAccumulator, sound, written)
    }

    method CollectSample()
      requires ChannelsInv(Voices())
      modifies this`tickAccumulator, this`written
      ensures Now() ==
        if old(tickAccumulator) >= MASTER_CLOCK then
          old(Now()).(accumulator := old(tickAccumulator) - MASTER_CLOCK,
            samples := old(written) + [Hear(Now().channels)])
        else old(Now())
    {
      hide Hear;
      if tickAccumulator >= MASTER_CLOCK {
        tickAccumulator := tickAccumulator - MASTER_CLOCK;
        var sample := GenerateSample();
        written := written + [sample];
      }
    }

    /** One turn of the sampling loop. */
    method PlayStretch(numTicks: nat, rate: nat) returns (consumed: nat)
      requires Valid() && ChannelsInv(Voices()) && 1 <= rate && tickAccumulator < MASTER_CLOCK + rate
      modifies Repr()
      ensures ChannelsInv(Voices()) && consumed == Stretch(old(tickAccumulator), rate, numTicks)
      ensures Now() == Iteration<Sound, Levels>(Advance, Hear, rate, old(Now()), numTicks)
      ensures State() == old(State()).(channels := Voices(), accumulator := tickAccumulator)
    {
      hide Advance, Hear, ChannelsInv, UntilSample;
      var untilNextSample := UntilSample(tickAccumulator, rate);
      consumed := Min(untilNextSample, numTicks);
      TickVoices(consumed);
      tickAccumulator := tickAccumulator + consumed * rate;
      CollectSample();
    }

    /** The sampling loop; at rates up to the master clock no stretch is empty. */
    method TickChannels(numTicks: nat, rate: nat)
      requires Valid() && ChannelsInv(Voices()) && 1 <= rate && tickAccumulator < MASTER_CLOCK + rate
      modifies Repr()
      ensures ChannelsInv(Voices())
      ensures Now() == Play<Sound, Levels>(Advance, Hear, rate, old(Now()), numTicks)
      ensures State() == old(State()).(channels := Voices(), accumulator := tickAccumulator)
    {
      hide Advance, Hear, Play, Stretch, UntilSample, ChannelsInv, Iteration;
      ghost var start := Now();
      var remaining := numTicks;
      while remaining > 0
        invariant 0 <= remaining <= numTicks && tickAccumulator < MASTER_CLOCK + rate && ChannelsInv(Voices())
        invariant Play<Sound, Levels>(Advance, Hear, rate, Now(), remaining)
          == Play<Sound, Levels>(Advance, Hear, rate, start, numTicks)
        invariant State() == old(State()).(channels := Voices(), accumulator := tickAccumulator)
        decreases remaining, tickAccumulator
      {
        PlayUnfolds<Sound, Levels>(Advance, Hear, rate, Now(), remaining);
        IterationDescends<Sound, Levels>(Advance, Hear, rate, Now(), remaining);
        var consumed := PlayStretch(remaining, rate);
        remaining := remaining - consumed;
      }
      PlayUnfolds<Sound, Levels>(Advance, Hear, rate, Now(), 0);
    }

    method Tick(numTicks: nat, divider: word, rate: nat)
      requires Valid() && Inv(State()) && 1 <= rate <= MASTER_CLOCK
      modifies Repr()
      ensures Inv(State())
      ensures (State(), written) ==
        var (after, samples) := Audio.Tick(old(State()), rate, divider, numTicks); (after, old(written) + samples)
    {
      FrameKeeps(State(), divider);
      TickKeeps(State(), rate, divider, numTicks);
      InvBounds(State());
      hide Frame, Inv, ChannelsInv, Play, Advance, Hear;
      TickFrameSequencer(divider);
      InvBounds(State());
      PlayAppends<Sound, Levels>(Advance, Hear, rate, Now(), numTicks);
      TickChannels(numTicks, rate);
    }

    method ResetChannels()
      requires Valid()
      modifies channel1, channel2, channel3, channel4
      ensures Voices() == Silenced(waveRam)
    {
      channel1.Reset();
      channel2.Reset();
      channel3.Reset();
      channel4.Reset();
    }

    /** Switching off silences and forgets everything but the sampling accumulator and wave RAM. */
    method SetEnabled(value: bool)
      requires Valid()
      modifies Repr()
      ensures State() == Audio.SetEnabled(old(State()), value) && written == old(written)
    {
      var wasEnabled := enabled;
      enabled := value;
      if wasEnabled && !enabled {
        dac1, dac2, dac3, dac4 := false, false, false, false;
        divCounter, previousDivider := -1, 0;
        ResetChannels();
      }
    }

    /** Channel 1 starts only with its converter on, and a length timer just filled loses a tick
        when the next frame step would not take one. */
    method TriggerChannel1()
      requires Valid() && channel1.initialPeriod <= MAX_PERIOD
      modifies channel1
      ensures channel1.State() == PulseStart(old(channel1.State()), dac1, NextSkipsLength(State()))
    {
      hide PulseTrigger, PulseLengthTick;
      channel1.Trigger();
      if !dac1 {
        channel1.enabled := false;
      }
      if channel1.length.enabled && divCounter % 2 == 0 && channel1.length.current == PULSE_LENGTH {
        channel1.TickLengthTimer();
      }
    }
  }

  lemma IterationDescends<C, S>(advance: (C, nat) -> C, hear: C -> S, rate: nat, s: Played<C, S>, n: nat)
    requires 1 <= rate && s.accumulator < MASTER_CLOCK + rate && n > 0
    ensures Stretch(s.accumulator, rate, n) <= n
    ensures Stretch(s.accumulator, rate, n) == 0 ==> Iteration(advance, hear, rate, s, n).accumulator < s.accumulator
  {
    hide Stretch, UntilSample;
  }

  lemma InvBounds(a: Apu)
    requires Inv(a)
    ensures ChannelsInv(a.channels) && PulseInv(a.channels.ch1) && a.accumulator < MASTER_CLOCK
  {
  }

  lemma FirstAfterLengths(c: Channels)
    ensures TickLengths(c).ch1 == PulseLengthTick(c.ch1)
  {
  }

  lemma LengthTickKeeps(p: Pulse)
    requires PulseInv(p)
    ensures PulseInv(PulseLengthTick(p))
  {
  }
}
