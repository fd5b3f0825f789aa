/** The channels' timers: any split of a run of ticks gives the same result, runs are their ticks
    one by one, and where the waveform stands has a closed form. */
module ApuTiming {
  import opened Common
  import opened Clocked
  import opened ApuChannels

  // ---------------------------------------------------------------- pulse

  lemma PulseTicksKeep(p: Pulse, n: nat)
    requires PulseInv(p)
    ensures var q := PulseTicks(p, n);
      && PulseInv(q) && (n > 0 ==> q.dutyTimer >= 1)
      && q == p.(current := q.current, dutyStep := q.dutyStep, dutyTimer := q.dutyTimer)
  {
    var same := (q: Pulse) => PulseInv(q) && q.dutyTimer == 0
      && q == p.(current := q.current, dutyStep := q.dutyStep, dutyTimer := 0);
    RunKeeps(PulseFire, PulseReload(p), Clocked(p.dutyTimer, p.(dutyTimer := 0)), n, same);
    hide Run;
  }

  /** However ticks are split, the channel ends the same. */
  lemma PulseTicksSplit(p: Pulse, a: nat, b: nat)
    requires PulseInv(p)
    ensures PulseTicks(p, a).currentPeriod <= MAX_PERIOD
    ensures PulseTicks(p, a + b) == PulseTicks(PulseTicks(p, a), b)
  {
    PulseTicksKeep(p, a);
    var s := Clocked(p.dutyTimer, p.(dutyTimer := 0));
    var core := (q: Pulse) => q.dutyTimer == 0;
    RunKeeps(PulseFire, PulseReload(p), s, a, core);
    RunSplit(PulseFire, PulseReload(p), s, a, b);
    hide Run, PulseFire;
    var t := Run(PulseFire, PulseReload(p), s, a);
    assert PulseTicks(p, a).(dutyTimer := 0) == t.core;
  }

  lemma StepRound(k: nat, m: nat)
    requires m == 8 || m == 32
    ensures (k % m + 1) % m == (k + 1) % m
  {
  }

  lemma {:induction false} PulseFired(p: Pulse, fires: nat)
    ensures Times(PulseFire, p, fires) == p.(
      dutyStep := (p.dutyStep + fires) % 8,
      current := if fires == 0 then p.current
        else Bit(Waveform(p.duty), (p.dutyStep + fires - 1) % 8) * p.envelope.volume)
    decreases fires
  {
    hide Waveform, Bit;
    if fires > 0 {
      TimesLast(PulseFire, p, fires);
      PulseFired(p, fires - 1);
      StepRound(p.dutyStep + fires - 1, 8);
    }
  }

  /** After any number of ticks of a running timer: the duty step has advanced once per period, and
      the output is the waveform bit just passed times the volume. */
  lemma PulseClosedForm(p: Pulse, n: nat)
    requires PulseInv(p) && p.dutyTimer >= 1
    ensures var fires := Fires(p.dutyTimer, PulseReload(p), n);
      && p.dutyTimer + fires * PulseReload(p) > n
      && PulseTicks(p, n) == p.(
           dutyStep := (p.dutyStep + fires) % 8, dutyTimer := p.dutyTimer + fires * PulseReload(p) - n,
           current := if fires == 0 then p.current
                      else Bit(Waveform(p.duty), (p.dutyStep + fires - 1) % 8) * p.envelope.volume)
  {
    RunClosedForm(PulseFire, PulseReload(p), Clocked(p.dutyTimer, p.(dutyTimer := 0)), n);
    PulseFired(p.(dutyTimer := 0), Fires(p.dutyTimer, PulseReload(p), n));
    hide Run, Fires, Times, Waveform, Bit, PulseReload, PulseFire;
  }

  // ---------------------------------------------------------------- wave

  lemma WaveTicksKeep(ram: WaveRam, w: Wave, n: nat)
    requires WaveInv(w)
    ensures var v := WaveTicks(ram, w, n);
      && WaveInv(v) && (n > 0 ==> v.timer >= 1)
      && v == w.(currentPeriod := v.currentPeriod, current := v.current, index := v.index, timer := v.timer)
  {
    var same := (v: Wave) => WaveInv(v) && v.timer == 0
      && v == w.(currentPeriod := v.currentPeriod, current := v.current, index := v.index, timer := 0);
    RunKeeps(WaveFire(ram), WaveReload(w), Clocked(w.timer, w.(timer := 0)), n, same);
    hide Run;
  }

  lemma WaveTicksSplit(ram: WaveRam, w: Wave, a: nat, b: nat)
    requires WaveInv(w)
    ensures WaveTicks(ram, w, a).initialPeriod <= MAX_PERIOD
    ensures WaveTicks(ram, w, a + b) == WaveTicks(ram, WaveTicks(ram, w, a), b)
  {
    WaveTicksKeep(ram, w, a);
    var s := Clocked(w.timer, w.(timer := 0));
    var core := (v: Wave) => v.timer == 0;
    RunKeeps(WaveFire(ram), WaveReload(w), s, a, core);
    RunSplit(WaveFire(ram), WaveReload(w), s, a, b);
    hide Run, WaveFire;
    var t := Run(WaveFire(ram), WaveReload(w), s, a);
    assert WaveTicks(ram, w, a).(timer := 0) == t.core;
  }

  lemma {:induction false} WaveFired(ram: WaveRam, w: Wave, fires: nat)
    ensures Times(WaveFire(ram), w, fires) == w.(
      index := (w.index + fires) % 32,
      currentPeriod := if fires == 0 then w.currentPeriod else w.initialPeriod,
      current := if fires == 0 then w.current else ApplyVolume(Nibble(ram, (w.index + fires - 1) % 32), w.currentLevel))
  {
    hide Nibble, ApplyVolume;
    if fires > 0 {
      TimesLast(WaveFire(ram), w, fires);
      WaveFired(ram, w, fires - 1);
      StepRound(w.index + fires - 1, 32);
    }
  }

  /** The wave channel plays the 32 nibbles of wave RAM round and round, one per period. */
  lemma WaveClosedForm(ram: WaveRam, w: Wave, n: nat)
    requires WaveInv(w) && w.timer >= 1
    ensures var fires := Fires(w.timer, WaveReload(w), n);
      && w.timer + fires * WaveReload(w) > n
      && WaveTicks(ram, w, n) == w.(
           index := (w.index + fires) % 32, timer := w.timer + fires * WaveReload(w) - n,
           currentPeriod := if fires == 0 then w.currentPeriod else w.initialPeriod,
           current := if fires == 0 then w.current
                      else ApplyVolume(Nibble(ram, (w.index + fires - 1) % 32), w.currentLevel))
  {
    RunClosedForm(WaveFire(ram), WaveReload(w), Clocked(w.timer, w.(timer := 0)), n);
    WaveFired(ram, w.(timer := 0), Fires(w.timer, WaveReload(w), n));
    hide Run, Fires, Times, Nibble, ApplyVolume, WaveReload, WaveFire;
  }

  // ---------------------------------------------------------------- noise

  lemma NoiseTicksKeep(z: Noise, n: nat)
    requires NoiseInv(z)
    ensures var y := NoiseTicks(z, n);
      && NoiseInv(y) && (n > 0 ==> y.timer >= 1)
      && y == z.(current := y.current, lfsr := y.lfsr, timer := y.timer)
  {
    hide NextLfsr;
    var same := (y: Noise) => NoiseInv(y) && y.timer == 0 && y == z.(current := y.current, lfsr := y.lfsr, timer := 0);
    RunKeeps(NoiseFire, NoisePeriod(z.randomness), Clocked(z.timer, z.(timer := 0)), n, same);
    hide Run, NoisePeriod;
  }

  lemma NoiseTicksSplit(z: Noise, a: nat, b: nat)
    requires NoiseInv(z)
    ensures NoiseTicks(z, a + b) == NoiseTicks(NoiseTicks(z, a), b)
  {
    NoiseTicksKeep(z, a);
    var s := Clocked(z.timer, z.(timer := 0));
    var core := (y: Noise) => y.timer == 0;
    hide NextLfsr;
    RunKeeps(NoiseFire, NoisePeriod(z.randomness), s, a, core);
    RunSplit(NoiseFire, NoisePeriod(z.randomness), s, a, b);
    hide Run, NoiseFire, NoisePeriod;
    var t := Run(NoiseFire, NoisePeriod(z.randomness), s, a);
    assert NoiseTicks(z, a).(timer := 0) == t.core;
  }
}
