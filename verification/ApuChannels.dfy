/** The four sound channels: their units, what triggering and the frame sequencer do to them, and
    the timers that step their waveforms. */
module ApuChannels {
  import opened Common
  import opened Clocked

  /** Fields decoded from three, four and five bits. */
  type octal = n: nat | n < 8
  type nibble = n: nat | n < 16
  type waveIndex = n: nat | n < 32

  const MAX_PERIOD: word := 0x7FF

  // ---------------------------------------------------------------- units

  datatype SweepConfig = SweepConfig(pace: octal, subtraction: bool, step: octal)
  datatype Sweep = Sweep(config: SweepConfig, enabled: bool, doneInSubMode: bool, timer: byte, shadow: word)

  function SweepReload(c: SweepConfig): byte {
    if c.pace > 0 then c.pace else 8
  }

  function SweepReset(s: Sweep, period: word): Sweep {
    s.(shadow := period, timer := SweepReload(s.config), enabled := s.config.step != 0 || s.config.pace != 0,
       doneInSubMode := false)
  }

  function SweepTick(s: Sweep): (Sweep, bool) {
    var timer := if s.timer > 0 then s.timer - 1 else 0;
    (s.(timer := if timer == 0 then SweepReload(s.config) else timer), timer == 0)
  }

  function Shifted(w: word, k: nat): (r: word)
    ensures r <= w
  {
    if k == 0 then w else Shifted(w, k - 1) / 2
  }

  /** The next period, before the overflow check. */
  function Frequency(s: Sweep): (f: nat)
    ensures s.config.subtraction ==> f <= s.shadow
  {
    if s.config.subtraction then s.shadow - Shifted(s.shadow, s.config.step)
      else s.shadow + Shifted(s.shadow, s.config.step)
  }

  function Computed(s: Sweep): Sweep {
    s.(doneInSubMode := s.config.subtraction)
  }

  datatype Length = Length(enabled: bool, initial: byte, current: nat)

  function LengthSet(l: Length, max: nat, value: byte): Length
    requires value <= max
  {
    l.(initial := value, current := max - value)
  }

  function LengthTrigger(l: Length, max: nat): Length {
    if l.current == 0 then l.(current := max) else l
  }

  function LengthTick(l: Length): Length {
    if l.current > 0 then l.(current := l.current - 1) else l
  }

  datatype EnvelopeConfig = EnvelopeConfig(volume: nibble, increase: bool, pace: octal)
  datatype Envelope = Envelope(config: EnvelopeConfig, volume: byte, timer: byte)

  function EnvelopeReset(e: Envelope): Envelope {
    e.(volume := e.config.volume, timer := e.config.pace)
  }

  function EnvelopeTick(e: Envelope): Envelope {
    if e.config.pace == 0 then e
    else
      var timer := Byte(e.timer - 1);
      if timer != 0 then e.(timer := timer)
      else
        var volume :=
          if e.config.increase && e.volume < 0xF then e.volume + 1
          else if !e.config.increase && e.volume > 0 then e.volume - 1
          else e.volume;
        e.(volume := volume, timer := e.config.pace)
  }

  /** The level a digital-to-analogue converter needs to be on. */
  predicate DacOn(c: EnvelopeConfig) {
    c.volume != 0 || c.increase
  }

  // ---------------------------------------------------------------- pulse

  datatype Duty = Duty12 | Duty25 | Duty50 | Duty75

  const PULSE_LENGTH := 64

  function Waveform(d: Duty): byte {
    match d case Duty12 => 0x01 case Duty25 => 0x03 case Duty50 => 0x0F case Duty75 => 0xFC
  }

  datatype Pulse = Pulse(enabled: bool, current: nat, sweep: Sweep, length: Length, duty: Duty, envelope: Envelope,
                         initialPeriod: word, currentPeriod: word, dutyStep: octal, dutyTimer: nat)

  predicate PulseInv(p: Pulse) {
    && p.initialPeriod <= MAX_PERIOD && p.currentPeriod <= MAX_PERIOD && p.sweep.shadow <= MAX_PERIOD
    && p.envelope.volume <= 15 && p.current <= 15
    && p.length.current <= PULSE_LENGTH && p.dutyTimer <= 8192
  }

  function Off(config: EnvelopeConfig): Envelope { Envelope(config, 0, 0) }

  const QUIET := EnvelopeConfig(0, false, 0)

  const SILENT_PULSE := Pulse(false, 0, Sweep(SweepConfig(0, false, 0), false, false, 0, 0), Length(false, 0, 0),
                              Duty12, Off(QUIET), 0, 0, 0, 0)

  function PulseOutput(p: Pulse): nat {
    if p.enabled then p.current else 0
  }

  function PulseReload(p: Pulse): nat
    requires p.currentPeriod <= MAX_PERIOD
  {
    (2048 - p.currentPeriod) * 4
  }

  function PulseFire(p: Pulse): Pulse {
    p.(current := Bit(Waveform(p.duty), p.dutyStep) * p.envelope.volume, dutyStep := (p.dutyStep + 1) % 8)
  }

  function PulseTicks(p: Pulse, n: nat): Pulse
    requires p.currentPeriod <= MAX_PERIOD
  {
    var s := Run(PulseFire, PulseReload(p), Clocked(p.dutyTimer, p.(dutyTimer := 0)), n);
    s.core.(dutyTimer := s.timer)
  }

  function PulseTrigger(p: Pulse): Pulse
    requires p.initialPeriod <= MAX_PERIOD
  {
    var t := p.(enabled := true, length := LengthTrigger(p.length, PULSE_LENGTH), currentPeriod := p.initialPeriod,
                envelope := EnvelopeReset(p.envelope), sweep := SweepReset(p.sweep, p.initialPeriod),
                dutyTimer := (2048 - p.initialPeriod) * 4);
    if t.sweep.config.step != 0 then t.(sweep := Computed(t.sweep), enabled := Frequency(t.sweep) <= MAX_PERIOD) else t
  }

  function PulseSweepConfig(p: Pulse, config: SweepConfig): Pulse {
    var wasInSubMode := p.sweep.config.subtraction;
    p.(sweep := p.sweep.(config := config),
       enabled := p.enabled && !(wasInSubMode && !config.subtraction && p.sweep.doneInSubMode))
  }

  function PulseLengthTick(p: Pulse): Pulse {
    if p.length.enabled then
      var l := LengthTick(p.length);
      p.(length := l, enabled := p.enabled && l.current != 0)
    else p
  }

  function PulseSweepTick(p: Pulse): Pulse {
    var (s, zero) := SweepTick(p.sweep);
    if zero && s.enabled && s.config.pace != 0 then
      var frequency := Frequency(s);
      if frequency > MAX_PERIOD then p.(sweep := Computed(s), enabled := false)
      else if s.config.step != 0 then
        var next := Computed(s).(shadow := frequency);
        p.(sweep := next, initialPeriod := frequency, enabled := p.enabled && Frequency(next) <= MAX_PERIOD)
      else p.(sweep := Computed(s))
    else p.(sweep := s)
  }

  // ---------------------------------------------------------------- wave

  datatype Level = Mute | Full | Half | Quarter

  const WAVE_LENGTH := 256

  type WaveRam = r: seq<byte> | |r| == 16 witness seq(16, i => 0)

  function ApplyVolume(input: nibble, level: Level): nat {
    match level case Mute => 0 case Full => input case Half => input / 2 case Quarter => input / 4
  }

  datatype Wave = Wave(enabled: bool, current: nat, length: Length, initialPeriod: word, currentPeriod: word,
                       initialLevel: Level, currentLevel: Level, index: waveIndex, timer: nat)

  predicate WaveInv(w: Wave) {
    && w.initialPeriod <= MAX_PERIOD && w.currentPeriod <= MAX_PERIOD
    && w.current <= 15 && w.length.current <= WAVE_LENGTH && w.timer <= 4103
  }

  const SILENT_WAVE := Wave(false, 0, Length(false, 0, 0), 0, 0, Mute, Mute, 0, 0)

  function WaveOutput(w: Wave): nat {
    if w.enabled then w.current else 0
  }

  function Nibble(ram: WaveRam, index: waveIndex): nibble {
    if index % 2 == 0 then ram[index / 2] / 16 else ram[index / 2] % 16
  }

  function WaveReload(w: Wave): nat
    requires w.initialPeriod <= MAX_PERIOD
  {
    (2048 - w.initialPeriod) * 2
  }

  function WaveFire(ram: WaveRam): Wave -> Wave {
    (w: Wave) => w.(currentPeriod := w.initialPeriod, current := ApplyVolume(Nibble(ram, w.index), w.currentLevel),
                    index := (w.index + 1) % 32)
  }

  function WaveTicks(ram: WaveRam, w: Wave, n: nat): Wave
    requires w.initialPeriod <= MAX_PERIOD
  {
    var s := Run(WaveFire(ram), WaveReload(w), Clocked(w.timer, w.(timer := 0)), n);
    s.core.(timer := s.timer)
  }

  function WaveTrigger(w: Wave): Wave
    requires w.initialPeriod <= MAX_PERIOD
  {
    w.(enabled := true, length := LengthTrigger(w.length, WAVE_LENGTH), currentPeriod := w.initialPeriod,
       currentLevel := w.initialLevel, index := 1, timer := (2048 - w.initialPeriod) * 2 + 7)
  }

  function WaveLengthTick(w: Wave): Wave {
    if w.length.enabled then
      var l := LengthTick(w.length);
      w.(length := l, enabled := w.enabled && l.current != 0)
    else w
  }

  // ---------------------------------------------------------------- noise

  datatype Randomness = Randomness(shift: nibble, narrow: bool, divider: octal)
  datatype Noise = Noise(enabled: bool, current: nat, length: Length, envelope: Envelope, randomness: Randomness,
                         lfsr: bv16, timer: nat)

  const NOISE_LENGTH := 64
  const MAX_NOISE_PERIOD := 112 * 0x8000

  predicate NoiseInv(z: Noise) {
    && z.envelope.volume <= 15 && z.current <= 15 && z.length.current <= NOISE_LENGTH && z.timer <= MAX_NOISE_PERIOD
  }

  const SILENT_NOISE := Noise(false, 0, Length(false, 0, 0), Off(QUIET), Randomness(0, false, 0), 0, 0)

  function NoiseOutput(z: Noise): nat {
    if z.enabled then z.current else 0
  }

  lemma {:induction false} Pow2Grows(k: nat, m: nat)
    requires k <= m
    ensures 1 <= Pow2(k) <= Pow2(m)
    decreases m
  {
    if k < m {
      Pow2Grows(k, m - 1);
    } else if k > 0 {
      Pow2Grows(k - 1, m - 1);
    }
  }

  function NoisePeriod(r: Randomness): (period: nat)
    ensures 8 <= period <= MAX_NOISE_PERIOD
  {
    Pow2Grows(r.shift, 15);
    assert Pow2(15) == 0x8000;
    [8, 16, 32, 48, 64, 80, 96, 112][r.divider] * Pow2(r.shift)
  }

  /** The shift register's next value; in the narrow mode every other bit is cleared. */
  function NextLfsr(lfsr: bv16, narrow: bool): bv16 {
    var feedback := (lfsr & 1) ^ ((lfsr & 2) >> 1);
    if narrow then feedback << 6 else (lfsr >> 1) | (feedback << 14)
  }

  function NoiseFire(z: Noise): Noise {
    var lfsr := NextLfsr(z.lfsr, z.randomness.narrow);
    z.(lfsr := lfsr, current := if lfsr & 1 == 0 then z.envelope.volume else 0)
  }

  function NoiseTicks(z: Noise, n: nat): Noise {
    var s := Run(NoiseFire, NoisePeriod(z.randomness), Clocked(z.timer, z.(timer := 0)), n);
    s.core.(timer := s.timer)
  }

  function NoiseTrigger(z: Noise): Noise {
    z.(enabled := true, length := LengthTrigger(z.length, NOISE_LENGTH), envelope := EnvelopeReset(z.envelope),
       lfsr := 0, timer := NoisePeriod(z.randomness))
  }

  function NoiseLengthTick(z: Noise): Noise {
    if z.length.enabled then
      var l := LengthTick(z.length);
      z.(length := l, enabled := z.enabled && l.current != 0)
    else z
  }
}
