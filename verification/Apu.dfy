/** The audio unit as a state machine: register writes, the frame sequencer that rides on the
    divider, and ticks that play the four channels. */
module Apu {
  import opened Common
  import opened ApuChannels
  import opened ApuTiming
  import opened Resampler

  // ---------------------------------------------------------------- the channels together

  datatype Channels = Channels(ch1: Pulse, ch2: Pulse, ch3: Wave, ch4: Noise, ram: WaveRam)

  predicate ChannelsInv(c: Channels) {
    PulseInv(c.ch1) && PulseInv(c.ch2) && WaveInv(c.ch3) && NoiseInv(c.ch4)
  }

  const BLANK_RAM: WaveRam := [0, 0, 0, 0, 0, 0, 0, 0, 0, 0, 0, 0, 0, 0, 0, 0]

  function Silenced(ram: WaveRam): Channels {
    Channels(SILENT_PULSE, SILENT_PULSE, SILENT_WAVE, SILENT_NOISE, ram)
  }

  const SILENCE := Silenced(BLANK_RAM)

  type Sound = c: Channels | ChannelsInv(c) witness SILENCE

  function Advance(c: Sound, n: nat): Sound {
    PulseTicksKeep(c.ch1, n);
    PulseTicksKeep(c.ch2, n);
    WaveTicksKeep(c.ram, c.ch3, n);
    NoiseTicksKeep(c.ch4, n);
    Channels(PulseTicks(c.ch1, n), PulseTicks(c.ch2, n), WaveTicks(c.ram, c.ch3, n), NoiseTicks(c.ch4, n), c.ram)
  }

  /** The four digital levels a sample is mixed from. */
  datatype Levels = Levels(ch1: nat, ch2: nat, ch3: nat, ch4: nat)

  function Hear(c: Sound): Levels {
    Levels(PulseOutput(c.ch1), PulseOutput(c.ch2), WaveOutput(c.ch3), NoiseOutput(c.ch4))
  }

  lemma AdvanceSplit(c: Sound, a: nat, b: nat)
    ensures Advance(c, 0) == c
    ensures Advance(Advance(c, a), b) == Advance(c, a + b)
  {
    PulseTicksSplit(c.ch1, a, b);
    PulseTicksSplit(c.ch2, a, b);
    WaveTicksSplit(c.ram, c.ch3, a, b);
    NoiseTicksSplit(c.ch4, a, b);
    NoTicks(c);
    hide PulseTicks, WaveTicks, NoiseTicks;
  }

  lemma NoTicks(c: Sound)
    ensures PulseTicks(c.ch1, 0) == c.ch1 && PulseTicks(c.ch2, 0) == c.ch2
    ensures WaveTicks(c.ram, c.ch3, 0) == c.ch3 && NoiseTicks(c.ch4, 0) == c.ch4
  {
  }

  lemma AdvanceIsAdditive()
    ensures Additive(Advance)
  {
    hide Advance;
    forall c: Sound ensures Advance(c, 0) == c {
      AdvanceSplit(c, 0, 0);
    }
    forall c: Sound, a: nat, b: nat ensures Advance(Advance(c, a), b) == Advance(c, a + b) {
      AdvanceSplit(c, a, b);
    }
  }

  // ---------------------------------------------------------------- state

  datatype Apu = Apu(enabled: bool, counter: int, previousDivider: word, channels: Channels,
                     dac1: bool, dac2: bool, dac3: bool, dac4: bool, accumulator: nat)

  const POWER_ON := Apu(true, -1, 0, SILENCE, false, false, false, false, 0)

  /** A pulse channel within its bounds, silent unless its converter is on, and the converter set
      as the envelope register says. */
  predicate PulseOk(p: Pulse, dac: bool) {
    PulseInv(p) && (p.enabled ==> dac) && dac == DacOn(p.envelope.config)
  }

  predicate WaveOk(w: Wave, dac: bool) {
    WaveInv(w) && (w.enabled ==> dac)
  }

  predicate NoiseOk(z: Noise, dac: bool) {
    NoiseInv(z) && (z.enabled ==> dac) && dac == DacOn(z.envelope.config)
  }

  /** Every timer's reload stays positive and every output in range, a sounding channel has its
      converter on, and the accumulator holds less than a sample. */
  predicate Inv(a: Apu) {
    && PulseOk(a.channels.ch1, a.dac1) && PulseOk(a.channels.ch2, a.dac2)
    && WaveOk(a.channels.ch3, a.dac3) && NoiseOk(a.channels.ch4, a.dac4)
    && -1 <= a.counter < 8 && a.accumulator < MASTER_CLOCK
  }

  // ---------------------------------------------------------------- decoding

  function DutyOf(v: byte): Duty {
    match v / 64 case 0 => Duty12 case 1 => Duty25 case 2 => Duty50 case _ => Duty75
  }

  function LevelOf(v: byte): Level {
    match v / 32 % 4 case 0 => Mute case 1 => Full case 2 => Half case _ => Quarter
  }

  function SweepOf(v: byte): SweepConfig { SweepConfig(v / 16 % 8, Bit(v, 3) == 1, v % 8) }

  function EnvelopeOf(v: byte): EnvelopeConfig { EnvelopeConfig(v / 16, Bit(v, 3) == 1, v % 8) }

  function RandomnessOf(v: byte): Randomness { Randomness(v / 16, Bit(v, 3) == 1, v % 8) }

  /** The low byte of an 11-bit period replaced. */
  function WithLow(period: word, v: byte): word {
    period / 0x100 % 8 * 0x100 + v
  }

  function WithHigh(period: word, v: byte): word {
    v % 8 * 0x100 + period % 0x100
  }

  // ---------------------------------------------------------------- register writes

  /** Every other frame step ticks the length timers; true when the next one does not. */
  predicate NextSkipsLength(a: Apu) {
    a.counter % 2 == 0
  }

  function PulseSetLength(p: Pulse, v: byte, on: bool): Pulse {
    p.(length := LengthSet(p.length, PULSE_LENGTH, v % 64), duty := if on then DutyOf(v) else p.duty)
  }

  function PulseSetEnvelope(p: Pulse, v: byte): Pulse {
    p.(envelope := p.envelope.(config := EnvelopeOf(v)), enabled := p.enabled && DacOn(EnvelopeOf(v)))
  }

  function PulseSetLow(p: Pulse, v: byte): Pulse {
    p.(initialPeriod := WithLow(p.initialPeriod, v))
  }

  function PulseEnableLength(p: Pulse, on: bool, skips: bool): Pulse {
    var q := p.(length := p.length.(enabled := on));
    if !p.length.enabled && on && skips then PulseLengthTick(q) else q
  }

  function PulseStart(p: Pulse, dac: bool, skips: bool): Pulse
    requires p.initialPeriod <= MAX_PERIOD
  {
    var t := PulseTrigger(p);
    var q := if dac then t else t.(enabled := false);
    if q.length.enabled && skips && q.length.current == PULSE_LENGTH then PulseLengthTick(q) else q
  }

  function PulseControl(p: Pulse, v: byte, dac: bool, skips: bool): Pulse {
    var q := PulseEnableLength(p.(initialPeriod := WithHigh(p.initialPeriod, v)), Bit(v, 6) == 1, skips);
    if Bit(v, 7) == 1 then PulseStart(q, dac, skips) else q
  }

  function WaveSetDac(w: Wave, v: byte): Wave {
    w.(enabled := w.enabled && Bit(v, 7) == 1)
  }

  function WaveSetLength(w: Wave, v: byte): Wave {
    w.(length := LengthSet(w.length, WAVE_LENGTH, v))
  }

  function WaveSetLevel(w: Wave, v: byte): Wave {
    w.(initialLevel := LevelOf(v))
  }

  function WaveSetLow(w: Wave, v: byte): Wave {
    w.(initialPeriod := WithLow(w.initialPeriod, v))
  }

  function WaveEnableLength(w: Wave, on: bool, skips: bool): Wave {
    var q := w.(length := w.length.(enabled := on));
    if !w.length.enabled && on && skips then WaveLengthTick(q) else q
  }

  function WaveStart(w: Wave, dac: bool, skips: bool): Wave
    requires w.initialPeriod <= MAX_PERIOD
  {
    var t := WaveTrigger(w);
    var q := if dac then t else t.(enabled := false);
    if q.length.enabled && skips && q.length.current == WAVE_LENGTH then WaveLengthTick(q) else q
  }

  /** Triggering while the channel is about to read spoils the start of wave RAM. */
  function Spoiled(w: Wave, ram: WaveRam): WaveRam {
    if w.enabled && w.timer == 3 then
      var i := w.index / 2;
      if i <= 3 then ram[0 := ram[i]]
      else
        var from := i / 4 * 4;
        [ram[from], ram[from + 1], ram[from + 2], ram[from + 3]] + ram[4..]
    else ram
  }

  /** The write of the high period bits and the length enable, before any trigger. */
  function WavePrepared(w: Wave, v: byte, skips: bool): Wave {
    WaveEnableLength(w.(initialPeriod := WithHigh(w.initialPeriod, v)), Bit(v, 6) == 1, skips)
  }

  function WaveControl(w: Wave, v: byte, dac: bool, skips: bool): Wave {
    var q := WavePrepared(w, v, skips);
    if Bit(v, 7) == 1 then WaveStart(q, dac, skips) else q
  }

  function NoiseSetLength(z: Noise, v: byte): Noise {
    z.(length := LengthSet(z.length, NOISE_LENGTH, v % 64))
  }

  function NoiseSetEnvelope(z: Noise, v: byte): Noise {
    z.(envelope := z.envelope.(config := EnvelopeOf(v)), enabled := z.enabled && DacOn(EnvelopeOf(v)))
  }

  function NoiseSetRandomness(z: Noise, v: byte): Noise {
    z.(randomness := RandomnessOf(v))
  }

  function NoiseEnableLength(z: Noise, on: bool, skips: bool): Noise {
    var q := z.(length := z.length.(enabled := on));
    if !z.length.enabled && on && skips then NoiseLengthTick(q) else q
  }

  function NoiseStart(z: Noise, dac: bool, skips: bool): Noise {
    var t := NoiseTrigger(z);
    var q := if dac then t else t.(enabled := false);
    if q.length.enabled && skips && q.length.current == NOISE_LENGTH then NoiseLengthTick(q) else q
  }

  function NoiseControl(z: Noise, v: byte, dac: bool, skips: bool): Noise {
    var q := NoiseEnableLength(z, Bit(v, 6) == 1, skips);
    if Bit(v, 7) == 1 then NoiseStart(q, dac, skips) else q
  }

  datatype Register =
    | Sweep1 | Duty1 | Envelope1 | PeriodLow1 | Control1
    | Duty2 | Envelope2 | PeriodLow2 | Control2
    | Dac3 | Length3 | Level3 | PeriodLow3 | Control3
    | Length4 | Envelope4 | Randomness4 | Control4
    | MasterControl

  predicate WritableWhenOff(r: Register) {
    r == Duty1 || r == Duty2 || r == Length3 || r == Length4 || r == MasterControl
  }

  /** Switching off resets everything but the sampling accumulator. */
  function SetEnabled(a: Apu, on: bool): Apu {
    if a.enabled && !on then
      POWER_ON.(enabled := false, accumulator := a.accumulator, channels := Silenced(a.channels.ram))
    else a.(enabled := on)
  }

  function Write(a: Apu, r: Register, v: byte): Apu {
    if !a.enabled && !WritableWhenOff(r) then a
    else
      var c := a.channels;
      var skips := NextSkipsLength(a);
      match r
      case Sweep1 => a.(channels := c.(ch1 := PulseSweepConfig(c.ch1, SweepOf(v))))
      case Duty1 => a.(channels := c.(ch1 := PulseSetLength(c.ch1, v, a.enabled)))
      case Envelope1 => a.(dac1 := DacOn(EnvelopeOf(v)), channels := c.(ch1 := PulseSetEnvelope(c.ch1, v)))
      case PeriodLow1 => a.(channels := c.(ch1 := PulseSetLow(c.ch1, v)))
      case Control1 => a.(channels := c.(ch1 := PulseControl(c.ch1, v, a.dac1, skips)))
      case Duty2 => a.(channels := c.(ch2 := PulseSetLength(c.ch2, v, a.enabled)))
      case Envelope2 => a.(dac2 := DacOn(EnvelopeOf(v)), channels := c.(ch2 := PulseSetEnvelope(c.ch2, v)))
      case PeriodLow2 => a.(channels := c.(ch2 := PulseSetLow(c.ch2, v)))
      case Control2 => a.(channels := c.(ch2 := PulseControl(c.ch2, v, a.dac2, skips)))
      case Dac3 => a.(dac3 := Bit(v, 7) == 1, channels := c.(ch3 := WaveSetDac(c.ch3, v)))
      case Length3 => a.(channels := c.(ch3 := WaveSetLength(c.ch3, v)))
      case Level3 => a.(channels := c.(ch3 := WaveSetLevel(c.ch3, v)))
      case PeriodLow3 => a.(channels := c.(ch3 := WaveSetLow(c.ch3, v)))
      case Control3 =>
        var ram := if Bit(v, 7) == 1 then Spoiled(WavePrepared(c.ch3, v, skips), c.ram) else c.ram;
        a.(channels := c.(ram := ram, ch3 := WaveControl(c.ch3, v, a.dac3, skips)))
      case Length4 => a.(channels := c.(ch4 := NoiseSetLength(c.ch4, v)))
      case Envelope4 => a.(dac4 := DacOn(EnvelopeOf(v)), channels := c.(ch4 := NoiseSetEnvelope(c.ch4, v)))
      case Randomness4 => a.(channels := c.(ch4 := NoiseSetRandomness(c.ch4, v)))
      case Control4 => a.(channels := c.(ch4 := NoiseControl(c.ch4, v, a.dac4, skips)))
      case MasterControl => SetEnabled(a, Bit(v, 7) == 1)
  }

  // ---------------------------------------------------------------- frame sequencer

  function TickLengths(c: Channels): Channels {
    c.(ch1 := PulseLengthTick(c.ch1), ch2 := PulseLengthTick(c.ch2), ch3 := WaveLengthTick(c.ch3),
      ch4 := NoiseLengthTick(c.ch4))
  }

  function TickEnvelopes(c: Channels): Channels {
    c.(ch1 := c.ch1.(envelope := EnvelopeTick(c.ch1.envelope)), ch2 := c.ch2.(envelope := EnvelopeTick(c.ch2.envelope)),
       ch4 := c.ch4.(envelope := EnvelopeTick(c.ch4.envelope)))
  }

  function TickSweep(c: Channels): Channels {
    c.(ch1 := PulseSweepTick(c.ch1))
  }

  function FrameStep(c: Channels, counter: int): Channels {
    match counter
    case 0 => TickLengths(c)
    case 2 => TickSweep(TickLengths(c))
    case 4 => TickLengths(c)
    case 6 => TickSweep(TickLengths(c))
    case 7 => TickEnvelopes(c)
    case _ => c
  }

  /** The frame step a falling edge of divider bit 12 makes. */
  function Frame(a: Apu, divider: word): Apu {
    var advances := a.previousDivider / 0x1000 % 2 == 1 && divider / 0x1000 % 2 == 0;
    var counter := (a.counter + if advances then 1 else 0) % 8;
    var b := a.(counter := counter, previousDivider := divider);
    if advances then b.(channels := FrameStep(b.channels, counter)) else b
  }

  // ---------------------------------------------------------------- invariant

  /** What a frame step may do: silence channels, never start them or move a converter's setting. */
  predicate Quieter(c: Channels, d: Channels) {
    && ChannelsInv(d)
    && (d.ch1.enabled ==> c.ch1.enabled) && (d.ch2.enabled ==> c.ch2.enabled)
    && (d.ch3.enabled ==> c.ch3.enabled) && (d.ch4.enabled ==> c.ch4.enabled)
    && d.ch1.envelope.config == c.ch1.envelope.config && d.ch2.envelope.config == c.ch2.envelope.config
    && d.ch4.envelope.config == c.ch4.envelope.config
  }

  lemma TickLengthsQuieter(c: Channels)
    requires ChannelsInv(c)
    ensures Quieter(c, TickLengths(c))
  {
  }

  lemma TickSweepQuieter(c: Channels)
    requires ChannelsInv(c)
    ensures Quieter(c, TickSweep(c))
  {
    hide Shifted, SweepTick;
    var (s, _) := SweepTick(c.ch1.sweep);
    SweepTickShadow(c.ch1.sweep);
  }

  lemma SweepTickShadow(s: Sweep)
    ensures SweepTick(s).0.shadow == s.shadow
  {
  }

  lemma TickEnvelopesQuieter(c: Channels)
    requires ChannelsInv(c)
    ensures Quieter(c, TickEnvelopes(c))
  {
    EnvelopeTickKeeps(c.ch1.envelope);
    EnvelopeTickKeeps(c.ch2.envelope);
    EnvelopeTickKeeps(c.ch4.envelope);
    hide EnvelopeTick;
  }

  lemma EnvelopeTickKeeps(e: Envelope)
    requires e.volume <= 15
    ensures EnvelopeTick(e).volume <= 15 && EnvelopeTick(e).config == e.config
  {
  }

  lemma FrameStepQuieter(c: Channels, counter: int)
    requires ChannelsInv(c)
    ensures Quieter(c, FrameStep(c, counter))
  {
    TickLengthsQuieter(c);
    TickSweepQuieter(TickLengths(c));
    TickEnvelopesQuieter(c);
    hide TickLengths, TickSweep, TickEnvelopes, ChannelsInv;
  }

  lemma QuieterKeeps(a: Apu, d: Channels)
    requires Inv(a) && Quieter(a.channels, d)
    ensures Inv(a.(channels := d))
  {
    hide DacOn;
  }

  lemma FrameShape(a: Apu, divider: word) returns (counter: int, advances: bool)
    ensures 0 <= counter < 8
    ensures Frame(a, divider) == a.(
      counter := counter, previousDivider := divider,
      channels := if advances then FrameStep(a.channels, counter) else a.channels)
  {
    hide FrameStep;
    counter, advances := Frame(a, divider).counter, a.previousDivider / 0x1000 % 2 == 1 && divider / 0x1000 % 2 == 0;
  }

  lemma FrameKeeps(a: Apu, divider: word)
    requires Inv(a)
    ensures Inv(Frame(a, divider))
  {
    hide Frame, FrameStep, PulseOk, WaveOk, NoiseOk, Quieter, ChannelsInv;
    var counter, advances := FrameShape(a, divider);
    if advances {
      InvChannels(a);
      FrameStepQuieter(a.channels, counter);
      QuieterKeeps(a, FrameStep(a.channels, counter));
    }
  }

  lemma InvChannels(a: Apu)
    requires Inv(a)
    ensures ChannelsInv(a.channels)
  {
  }

  lemma AdvanceQuieter(c: Sound, n: nat)
    ensures Quieter(c, Advance(c, n))
  {
    PulseTicksKeep(c.ch1, n);
    PulseTicksKeep(c.ch2, n);
    WaveTicksKeep(c.ram, c.ch3, n);
    NoiseTicksKeep(c.ch4, n);
    hide PulseTicks, WaveTicks, NoiseTicks, PulseInv, WaveInv, NoiseInv;
  }

  // ---------------------------------------------------------------- ticks

  function Start(a: Apu): Played<Sound, Levels>
    requires ChannelsInv(a.channels)
  {
    var sound: Sound := a.channels;
    Played<Sound, Levels>.Played(a.accumulator, sound, [])
  }

  /** One call: the frame sequencer sees the divider once, then the channels play. */
  function Tick(a: Apu, rate: nat, divider: word, n: nat): (Apu, seq<Levels>)
    requires Inv(a) && 1 <= rate <= MASTER_CLOCK
  {
    FrameKeeps(a, divider);
    var b := Frame(a, divider);
    var played := Play<Sound, Levels>(Advance, Hear, rate, Start(b), n);
    (b.(accumulator := played.accumulator, channels := played.channels), played.samples)
  }

  lemma TickKeeps(a: Apu, rate: nat, divider: word, n: nat)
    requires Inv(a) && 1 <= rate <= MASTER_CLOCK
    ensures Inv(Tick(a, rate, divider, n).0)
  {
    FrameKeeps(a, divider);
    var b := Frame(a, divider);
    AdvanceIsAdditive();
    NoDrift<Sound, Levels>(Advance, Hear, rate, Start(b), n);
    AdvanceQuieter(b.channels, n);
    QuieterKeeps(b, Advance(b.channels, n));
    hide Advance, Frame, Play, PulseOk, WaveOk, NoiseOk, Quieter, Additive;
  }

  lemma PulseWritesKeep(p: Pulse, dac: bool, v: byte, on: bool)
    requires PulseOk(p, dac)
    ensures PulseOk(PulseSweepConfig(p, SweepOf(v)), dac)
    ensures PulseOk(PulseSetLength(p, v, on), dac)
    ensures PulseOk(PulseSetEnvelope(p, v), DacOn(EnvelopeOf(v)))
    ensures PulseOk(PulseSetLow(p, v), dac)
  {
    hide Bit, Frequency, SweepOf, EnvelopeOf, DutyOf, DacOn;
  }

  lemma PulseControlKeeps(p: Pulse, v: byte, dac: bool, skips: bool)
    requires PulseOk(p, dac)
    ensures PulseOk(PulseControl(p, v, dac, skips), dac)
  {
    hide Bit, Frequency, DacOn;
  }

  lemma WaveWritesKeep(w: Wave, dac: bool, v: byte, skips: bool)
    requires WaveOk(w, dac)
    ensures WaveOk(WaveSetDac(w, v), Bit(v, 7) == 1)
    ensures WaveOk(WaveSetLength(w, v), dac) && WaveOk(WaveSetLevel(w, v), dac) && WaveOk(WaveSetLow(w, v), dac)
    ensures WaveOk(WaveControl(w, v, dac, skips), dac)
  {
    hide Bit, LevelOf;
  }

  lemma NoiseWritesKeep(z: Noise, dac: bool, v: byte, skips: bool)
    requires NoiseOk(z, dac)
    ensures NoiseOk(NoiseSetLength(z, v), dac) && NoiseOk(NoiseSetRandomness(z, v), dac)
    ensures NoiseOk(NoiseSetEnvelope(z, v), DacOn(EnvelopeOf(v)))
    ensures NoiseOk(NoiseControl(z, v, dac, skips), dac)
  {
    hide Bit, EnvelopeOf, RandomnessOf, NoisePeriod;
  }

  predicate OfChannel1(r: Register) {
    r == Sweep1 || r == Duty1 || r == Envelope1 || r == PeriodLow1 || r == Control1
  }

  predicate OfChannel2(r: Register) {
    r == Duty2 || r == Envelope2 || r == PeriodLow2 || r == Control2
  }

  predicate OfChannel3(r: Register) {
    r == Dac3 || r == Length3 || r == Level3 || r == PeriodLow3 || r == Control3
  }

  lemma Channel1WriteKeeps(a: Apu, r: Register, v: byte)
    requires Inv(a) && OfChannel1(r)
    ensures Inv(Write(a, r, v))
  {
    PulseWritesKeep(a.channels.ch1, a.dac1, v, a.enabled);
    PulseControlKeeps(a.channels.ch1, v, a.dac1, NextSkipsLength(a));
    hide PulseSweepConfig, PulseSetLength, PulseSetEnvelope, PulseSetLow, PulseControl, Bit, EnvelopeOf, SweepOf,
      NextSkipsLength, PulseOk, WaveOk, NoiseOk, DacOn;
  }

  lemma Channel2WriteKeeps(a: Apu, r: Register, v: byte)
    requires Inv(a) && OfChannel2(r)
    ensures Inv(Write(a, r, v))
  {
    PulseWritesKeep(a.channels.ch2, a.dac2, v, a.enabled);
    PulseControlKeeps(a.channels.ch2, v, a.dac2, NextSkipsLength(a));
    hide PulseSweepConfig, PulseSetLength, PulseSetEnvelope, PulseSetLow, PulseControl, Bit, EnvelopeOf, SweepOf,
      NextSkipsLength, PulseOk, WaveOk, NoiseOk, DacOn;
  }

  lemma Channel3WriteKeeps(a: Apu, r: Register, v: byte)
    requires Inv(a) && OfChannel3(r)
    ensures Inv(Write(a, r, v))
  {
    hide PulseSweepConfig, PulseSetLength, PulseSetEnvelope, PulseSetLow, PulseControl, NoiseSetLength,
      NoiseSetEnvelope, NoiseSetRandomness, NoiseControl, SetEnabled, DacOn;
    WaveWritesKeep(a.channels.ch3, a.dac3, v, NextSkipsLength(a));
    hide WaveSetDac, WaveSetLength, WaveSetLevel, WaveSetLow, WaveControl, WavePrepared, Spoiled, Bit, NextSkipsLength,
      PulseOk, WaveOk, NoiseOk;
  }

  lemma Channel4WriteKeeps(a: Apu, r: Register, v: byte)
    requires Inv(a) && (r == Length4 || r == Envelope4 || r == Randomness4 || r == Control4)
    ensures Inv(Write(a, r, v))
  {
    NoiseWritesKeep(a.channels.ch4, a.dac4, v, NextSkipsLength(a));
    hide NoiseSetLength, NoiseSetEnvelope, NoiseSetRandomness, NoiseControl, Bit, EnvelopeOf, NextSkipsLength,
      PulseOk, WaveOk, NoiseOk, DacOn;
  }

  lemma MasterWriteKeeps(a: Apu, v: byte)
    requires Inv(a)
    ensures Inv(Write(a, MasterControl, v))
  {
    SetEnabledKeeps(a, Bit(v, 7) == 1);
    hide SetEnabled, Bit, PulseOk, WaveOk, NoiseOk;
  }

  /** Every register write keeps the audio unit's invariant. */
  lemma WriteKeeps(a: Apu, r: Register, v: byte)
    requires Inv(a)
    ensures Inv(Write(a, r, v))
  {
    hide Write, Inv;
    if OfChannel1(r) {
      Channel1WriteKeeps(a, r, v);
    } else if OfChannel2(r) {
      Channel2WriteKeeps(a, r, v);
    } else if OfChannel3(r) {
      Channel3WriteKeeps(a, r, v);
    } else if r == MasterControl {
      MasterWriteKeeps(a, v);
    } else {
      Channel4WriteKeeps(a, r, v);
    }
  }

  lemma SetEnabledKeeps(a: Apu, on: bool)
    requires Inv(a)
    ensures Inv(SetEnabled(a, on))
  {
    hide Bit;
  }
}
