/** The whole machine under the scheduler: processor, timer, PPU, OAM DMA, audio and serial link in
    that order. What the processor does in a tick is left open: any change to its own state and to
    memory, and any register writes to the other components. */
module Engine {
  import opened Common
  import opened Clocked
  import opened Scheduler
  import opened PpuPipe
  import Timer
  import Ppu
  import PpuTiming
  import PpuFrame
  import OamDma
  import Audio = Apu
  import ApuRuns
  import Resampler
  import Serial

  type SaneTimer = t: Timer.Timer | Timer.Inv(t) witness Timer.RESET
  type SaneDma = d: OamDma.Dma | OamDma.Inv(d) witness OamDma.Dma(OamDma.Inactive, 0, 0, 0, 0, 0)
  type SaneApu = a: Audio.Apu | Audio.Inv(a) witness Audio.POWER_ON
  type SaneLink = l: Serial.Link | Serial.Inv(l) witness Serial.Link(0, false, false, 0, 0, [], [], 0)
  type SanePpu = p: Ppu.Ppu | PpuTiming.Inv(p) witness BlankPpu()

  function BlankPipe(): Pipe {
    Pipe([], Fetcher(0, TileAddress, 0, 0, 0, seq(8, i => Pixels.TRANSPARENT), 0, true),
         [], [], SpriteFetcher(SpriteAddress, 0, None, None, 0, None, 0, 0),
         false, 0, 0, 0, 0, seq(LCD_WIDTH, i => 0))
  }

  function BlankPpu(): Ppu.Ppu {
    Ppu.Ppu(true, Ppu.OamScan, 0, 0, 0, Ppu.StatSources(false, false, false, false), false, false, false,
            Regs(false, false, false, false, false, false, false, 0, 0, 0, 0, 0, 0, 0), BlankPipe(), [])
  }

  /** Every component within its invariant; `core` is all the processor keeps to itself. */
  datatype Engine<C> = Engine(core: C, mem: Memory, timer: SaneTimer, ppu: SanePpu, dma: SaneDma, apu: SaneApu,
                              link: SaneLink, sound: seq<Audio.Levels>)

  /** What a processor does in a stretch of ticks. */
  datatype Effects<C> = Effects(core: C, mem: Memory, timer: seq<Timer.TimerWrite>, ppu: seq<Ppu.PpuWrite>,
                                pages: seq<byte>, apu: seq<(Audio.Register, byte)>, serial: seq<Serial.Register>)

  type positive = n: nat | n >= 1 witness 1
  type sampleRate = r: nat | 1 <= r <= Resampler.MASTER_CLOCK witness 1

  /** The processor, the machine at the other end of the serial cable and the sound card. */
  datatype Surroundings<!C> = Surroundings(
    batch: C -> positive, run: (Engine<C>, nat) -> Effects<C>, peer: Serial.Peer, rate: sampleRate)

  // ---------------------------------------------------------------- register writes

  ghost function TimerWrites(t: SaneTimer, ws: seq<Timer.TimerWrite>): SaneTimer
    decreases |ws|
  {
    if ws == [] then t
    else
      Timer.ActInv(t, Timer.Write(ws[0]));
      TimerWrites(Timer.Apply(t, ws[0]), ws[1..])
  }

  ghost function DmaWrites(d: SaneDma, pages: seq<byte>): SaneDma
    decreases |pages|
  {
    if pages == [] then d
    else
      OamDma.ActInv(d, seq(0x1_0000, i => 0), OamDma.Start(pages[0]));
      var page: nat := pages[0];
      DmaWrites(OamDma.StartTransfer(d, page * 0x100), pages[1..])
  }

  ghost function ApuWrites(a: SaneApu, ws: seq<(Audio.Register, byte)>): SaneApu
    decreases |ws|
  {
    if ws == [] then a
    else
      Audio.WriteKeeps(a, ws[0].0, ws[0].1);
      ApuWrites(Audio.Write(a, ws[0].0, ws[0].1), ws[1..])
  }

  ghost function SerialWrites(l: SaneLink, ws: seq<Serial.Register>): SaneLink
    decreases |ws|
  {
    if ws == [] then l else SerialWrites(Serial.Write(l, ws[0]), ws[1..])
  }

  // ---------------------------------------------------------------- components

  ghost function CpuTick<C>(around: Surroundings<C>, e: Engine<C>, k: nat): Engine<C> {
    var done := around.run(e, k);
    e.(core := done.core, mem := done.mem, timer := TimerWrites(e.timer, done.timer),
       ppu := PpuTiming.ApplyAll(e.ppu, done.ppu), dma := DmaWrites(e.dma, done.pages),
       apu := ApuWrites(e.apu, done.apu), link := SerialWrites(e.link, done.serial))
  }

  ghost function TimerTick<C>(e: Engine<C>, k: nat): Engine<C> {
    Timer.TicksInv(e.timer, k);
    e.(timer := Timer.Ticks(e.timer, k))
  }

  ghost function PpuTick<C>(e: Engine<C>, k: nat): Engine<C> {
    e.(ppu := PpuTiming.Dots(e.ppu, e.mem, k))
  }

  ghost function DmaTick<C>(e: Engine<C>, k: nat): Engine<C> {
    var (d, m) := OamDma.Ticks(e.dma, e.mem, k);
    e.(dma := d, mem := m)
  }

  ghost function ApuTick<C>(around: Surroundings<C>, e: Engine<C>, k: nat): Engine<C> {
    Audio.TickKeeps(e.apu, around.rate, e.timer.div, k);
    var (a, samples) := Audio.Tick(e.apu, around.rate, e.timer.div, k);
    e.(apu := a, sound := e.sound + samples)
  }

  ghost function SerialTick<C>(around: Surroundings<C>, e: Engine<C>, k: nat): Engine<C> {
    Serial.HorizonPositive(e.link, around.peer, k, Serial.WriteData(0));
    e.(link := Serial.Ticks(e.link, around.peer, k))
  }

  const CPU := 0
  const TIMER := 1
  const PPU := 2
  const DMA := 3
  const APU := 4
  const SERIAL := 5

  /** In the order the engine lists them. */
  ghost function Components<C>(around: Surroundings<C>): (cs: seq<Component<Engine<C>>>)
    ensures |cs| == 6
  {
    [Component((e: Engine<C>) => true, (e: Engine<C>) => around.batch(e.core),
               (e: Engine<C>, k: nat) => CpuTick(around, e, k)),
     Component((e: Engine<C>) => true, (e: Engine<C>) => Timer.TickBatch(e.timer),
               (e: Engine<C>, k: nat) => TimerTick(e, k)),
     Component((e: Engine<C>) => e.ppu.enabled, (e: Engine<C>) => Ppu.TickBatch(e.ppu),
               (e: Engine<C>, k: nat) => PpuTick(e, k)),
     Component((e: Engine<C>) => e.dma.phase != OamDma.Inactive, (e: Engine<C>) => OamDma.TickBatch(e.dma),
               (e: Engine<C>, k: nat) => DmaTick(e, k)),
     Component((e: Engine<C>) => e.apu.enabled, (e: Engine<C>) => 4,
               (e: Engine<C>, k: nat) => ApuTick(around, e, k)),
     Component((e: Engine<C>) => Serial.Active(e.link), (e: Engine<C>) => Serial.TickBatch(e.link),
               (e: Engine<C>, k: nat) => SerialTick(around, e, k))]
  }

  // ---------------------------------------------------------------- progress

  lemma EveryBatchPositive<C>(around: Surroundings<C>, e: Engine<C>)
    ensures Timer.TickBatch(e.timer) == 1 && Ppu.TickBatch(e.ppu) >= 1
    ensures OamDma.TickBatch(e.dma) >= 1
    ensures Serial.TickBatch(e.link) >= 1
  {
    Timer.BatchOne(e.timer);
    if e.ppu.enabled {
      PpuTiming.BatchPositive(e.ppu);
    }
    OamDma.TickInv(e.dma, e.mem);
    Serial.HorizonPositive(e.link, around.peer, 0, Serial.WriteData(0));
    hide Timer.Inv, PpuTiming.Inv, OamDma.Inv, OamDma.Tick, Serial.Ticks;
  }

  lemma AnnouncedBatches<C>(around: Surroundings<C>, e: Engine<C>, i: nat)
    requires i < 6
    ensures Components(around)[i].batch(e) >= 1
    ensures Components(around)[TIMER].batch(e) == 1
  {
    EveryBatchPositive(around, e);
    hide Timer.TickBatch, Ppu.TickBatch, OamDma.TickBatch, Serial.TickBatch, CpuTick, TimerTick, PpuTick, DmaTick,
      ApuTick, SerialTick, Timer.Inv, PpuTiming.Inv, OamDma.Inv, Audio.Inv, Serial.Inv;
  }

  /** In every state, whatever the processor does, every component announces at least one tick and
      the timer exactly one. */
  lemma NeverSpins<C(!new)>(around: Surroundings<C>)
    ensures Progressive(Components(around)) && Unit(Components(around), TIMER)
  {
    hide Components;
    forall e: Engine<C>, i | 0 <= i < 6 ensures Components(around)[i].batch(e) >= 1 {
      AnnouncedBatches(around, e, i);
    }
    forall e: Engine<C> ensures Components(around)[TIMER].batch(e) == 1 {
      AnnouncedBatches(around, e, TIMER);
    }
  }

  /** A call of the engine's tick. */
  ghost function Tick<C(!new)>(around: Surroundings<C>, e: Engine<C>, n: nat): Engine<C> {
    NeverSpins(around);
    Schedule(Components(around), e, n)
  }

  /** How the ticks are cut into calls makes no difference to anything. */
  lemma TickSplit<C(!new)>(around: Surroundings<C>, e: Engine<C>, a: nat, b: nat)
    ensures Tick(around, e, a + b) == Tick(around, Tick(around, e, a), b)
  {
    NeverSpins(around);
    hide Components, Schedule;
    ScheduleSplit(Components(around), TIMER, e, a, b);
  }

  // ---------------------------------------------------------------- one round

  /** The round up to the audio unit's turn. */
  ghost function BeforeApu<C>(around: Surroundings<C>, e: Engine<C>): Engine<C> {
    var cpu := CpuTick(around, e, 1);
    var timer := TimerTick(cpu, 1);
    var ppu := if timer.ppu.enabled then PpuTick(timer, 1) else timer;
    if ppu.dma.phase != OamDma.Inactive then DmaTick(ppu, 1) else ppu
  }

  /** One tick of everything that is active, in order. */
  ghost function OneRound<C>(around: Surroundings<C>, e: Engine<C>): Engine<C> {
    var dma := BeforeApu(around, e);
    var apu := if dma.apu.enabled then ApuTick(around, dma, 1) else dma;
    if Serial.Active(apu.link) then SerialTick(around, apu, 1) else apu
  }

  lemma RoundUnfolds<S>(components: seq<Component<S>>, s: S, batch: nat, upTo: nat)
    requires upTo <= |components|
    ensures Round(components[..upTo], s, batch) ==
      if upTo == 0 then s
      else
        var before := Round(components[..upTo - 1], s, batch);
        if components[upTo - 1].active(before) then components[upTo - 1].tick(before, batch) else before
  {
    if upTo > 0 {
      assert components[..upTo][..upTo - 1] == components[..upTo - 1];
    }
  }

  lemma ComponentFacts<C>(around: Surroundings<C>, e: Engine<C>, k: nat)
    ensures var cs := Components(around);
      && cs[CPU].active(e) && cs[TIMER].active(e) && cs[PPU].active(e) == e.ppu.enabled
      && cs[DMA].active(e) == (e.dma.phase != OamDma.Inactive) && cs[APU].active(e) == e.apu.enabled
      && cs[SERIAL].active(e) == Serial.Active(e.link)
      && cs[CPU].tick(e, k) == CpuTick(around, e, k) && cs[TIMER].tick(e, k) == TimerTick(e, k)
      && cs[PPU].tick(e, k) == PpuTick(e, k) && cs[DMA].tick(e, k) == DmaTick(e, k)
      && cs[APU].tick(e, k) == ApuTick(around, e, k) && cs[SERIAL].tick(e, k) == SerialTick(around, e, k)
  {
    hide CpuTick, TimerTick, PpuTick, DmaTick, ApuTick, SerialTick, Serial.Active;
  }

  lemma WholeRound<S>(components: seq<Component<S>>, s: S, batch: nat)
    ensures Round(components[..|components|], s, batch) == Round(components, s, batch)
  {
    hide Round;
    assert components[..|components|] == components;
  }

  lemma AfterTimer<C>(around: Surroundings<C>, e: Engine<C>)
    ensures Round(Components(around)[..2], e, 1) == TimerTick(CpuTick(around, e, 1), 1)
  {
    hide Round, Components, CpuTick, TimerTick, PpuTick, DmaTick, ApuTick, SerialTick, Serial.Active;
    var cs := Components(around);
    RoundUnfolds(cs, e, 1, 0);
    RoundUnfolds(cs, e, 1, 1);
    RoundUnfolds(cs, e, 1, 2);
    ComponentFacts(around, e, 1);
    ComponentFacts(around, CpuTick(around, e, 1), 1);
  }

  lemma AfterDma<C>(around: Surroundings<C>, e: Engine<C>)
    ensures var timer := Round(Components(around)[..2], e, 1);
      var ppu := if timer.ppu.enabled then PpuTick(timer, 1) else timer;
      Round(Components(around)[..4], e, 1) == if ppu.dma.phase != OamDma.Inactive then DmaTick(ppu, 1) else ppu
  {
    hide Round, Components, CpuTick, TimerTick, PpuTick, DmaTick, ApuTick, SerialTick, Serial.Active;
    var cs := Components(around);
    RoundUnfolds(cs, e, 1, 3);
    RoundUnfolds(cs, e, 1, 4);
    ComponentFacts(around, Round(cs[..2], e, 1), 1);
    ComponentFacts(around, Round(cs[..3], e, 1), 1);
  }

  lemma AfterSerial<C>(around: Surroundings<C>, e: Engine<C>)
    ensures var dma := Round(Components(around)[..4], e, 1);
      var apu := if dma.apu.enabled then ApuTick(around, dma, 1) else dma;
      Round(Components(around), e, 1) == if Serial.Active(apu.link) then SerialTick(around, apu, 1) else apu
  {
    hide Round, Components, CpuTick, TimerTick, PpuTick, DmaTick, ApuTick, SerialTick, Serial.Active;
    var cs := Components(around);
    RoundUnfolds(cs, e, 1, 5);
    RoundUnfolds(cs, e, 1, 6);
    ComponentFacts(around, Round(cs[..4], e, 1), 1);
    ComponentFacts(around, Round(cs[..5], e, 1), 1);
    WholeRound(cs, e, 1);
  }

  lemma RoundIsOneRound<C>(around: Surroundings<C>, e: Engine<C>)
    ensures Round(Components(around), e, 1) == OneRound(around, e)
  {
    hide Round, Components, CpuTick, TimerTick, PpuTick, DmaTick, ApuTick, SerialTick, Serial.Active;
    AfterTimer(around, e);
    AfterDma(around, e);
    AfterSerial(around, e);
  }

  /** The engine is its rounds of single ticks, the last one made last. */
  lemma TickLast<C(!new)>(around: Surroundings<C>, e: Engine<C>, n: nat)
    requires n > 0
    ensures Tick(around, e, n) == OneRound(around, Tick(around, e, n - 1))
  {
    hide Components, Schedule, Round, Times, OneRound;
    NeverSpins(around);
    UnitRounds(Components(around), TIMER, e, n);
    UnitRounds(Components(around), TIMER, e, n - 1);
    TimesLast(UnitRound(Components(around)), e, n);
    RoundIsOneRound(around, Tick(around, e, n - 1));
  }

  lemma TickNone<C(!new)>(around: Surroundings<C>, e: Engine<C>)
    ensures Tick(around, e, 0) == e
  {
    hide Components;
  }

  // ---------------------------------------------------------------- the PPU inside the engine

  ghost function PpuInput<C>(around: Surroundings<C>, e: Engine<C>): PpuTiming.Input {
    var done := around.run(e, 1);
    PpuTiming.Input(done.ppu, done.mem)
  }

  ghost function PpuInputs<C(!new)>(around: Surroundings<C>, e: Engine<C>, n: nat): (inputs: seq<PpuTiming.Input>)
    ensures |inputs| == n
  {
    if n == 0 then [] else PpuInputs(around, e, n - 1) + [PpuInput(around, Tick(around, e, n - 1))]
  }

  lemma PpuInRound<C>(around: Surroundings<C>, e: Engine<C>)
    ensures OneRound(around, e).ppu == PpuTiming.RunDot(e.ppu, PpuInput(around, e))
  {
    var done := around.run(e, 1);
    var p := PpuTiming.ApplyAll(e.ppu, done.ppu);
    OneDot(p, done.mem);
    hide TimerWrites, DmaWrites, ApuWrites, SerialWrites, PpuTiming.ApplyAll, PpuTiming.Dots, Ppu.Dot, OamDma.Ticks,
      Audio.Tick, Serial.Ticks, Timer.Ticks, Serial.Active, PpuTiming.Inv, Timer.Inv, OamDma.Inv, Audio.Inv, Serial.Inv;
  }

  lemma OneDot(p: Ppu.Ppu, mem: Memory)
    requires PpuTiming.Inv(p)
    ensures Ppu.CanStep(p)
    ensures Ppu.Dot(p, mem) == if p.enabled then PpuTiming.Dots(p, mem, 1) else p
  {
    PpuTiming.InvCanStep(p);
    PpuTiming.DotsUnfold(p, mem, 1);
    PpuTiming.DotInv(p, mem);
    PpuTiming.NoDots(Ppu.Dot(p, mem), mem);
    hide PpuTiming.Inv, PpuTiming.Dots, Ppu.Step;
  }

  /** Inside the engine the PPU runs exactly as it does alone, one dot per tick, under whatever the
      processor writes and the memory holds at each tick. */
  lemma {:induction false} PpuAlone<C(!new)>(around: Surroundings<C>, e: Engine<C>, n: nat)
    ensures Tick(around, e, n).ppu == PpuTiming.Run(e.ppu, PpuInputs(around, e, n))
    decreases n
  {
    hide Tick, OneRound, PpuTiming.RunDot, PpuInput;
    if n == 0 {
      TickNone(around, e);
    } else {
      PpuAlone(around, e, n - 1);
      TickLast(around, e, n);
      PpuInRound(around, Tick(around, e, n - 1));
      var inputs := PpuInputs(around, e, n);
      assert inputs[..n - 1] == PpuInputs(around, e, n - 1);
    }
  }

  /** The processor never switches the LCD off. */
  ghost predicate LeavesLcdOn<C(!new)>(around: Surroundings<C>) {
    forall e: Engine<C>, k: nat, w :: w in around.run(e, k).ppu ==> w != Ppu.WriteEnable(false)
  }

  lemma {:induction false} InputsLeaveLcdOn<C(!new)>(around: Surroundings<C>, e: Engine<C>, n: nat)
    requires LeavesLcdOn(around)
    ensures forall i :: i in PpuInputs(around, e, n) ==> PpuTiming.LcdLeftOn(i)
  {
    hide Tick;
    if n > 0 {
      InputsLeaveLcdOn(around, e, n - 1);
      assert PpuTiming.LcdLeftOn(PpuInput(around, Tick(around, e, n - 1)));
    }
  }

  /** Whatever else the machine does, every 70224 ticks are one frame: 144 lines drawn in order and
      one v-blank requested, however the ticks are cut into calls. The first may have begun already. */
  lemma EngineFrames<C(!new)>(around: Surroundings<C>, e: Engine<C>, n: nat, k: nat)
    requires e.ppu.enabled && e.ppu.ly == 0 && LeavesLcdOn(around)
    requires e.ppu.cycle + n == k * PpuFrame.TICKS_PER_FRAME
    ensures var p := Tick(around, e, n).ppu;
      && p.ly == 0 && p.cycle == 0 && p.mode == Ppu.OamScan
      && PpuFrame.LinesOf(p.log) == PpuFrame.LinesOf(e.ppu.log) + PpuFrame.Repeated(k)
      && PpuFrame.VBlanksOf(p.log) == PpuFrame.VBlanksOf(e.ppu.log) + k
  {
    hide Tick, PpuTiming.Run, PpuFrame.LinesOf, PpuFrame.Repeated, PpuFrame.VBlanksOf, PpuTiming.LcdLeftOn, PpuInputs,
      PpuTiming.Inv;
    PpuAlone(around, e, n);
    InputsLeaveLcdOn(around, e, n);
    PpuFrame.FrameLength(e.ppu, PpuInputs(around, e, n), k);
  }

  // ---------------------------------------------------------------- the timer inside the engine

  ghost predicate LeavesTimerAlone<C(!new)>(around: Surroundings<C>) {
    forall e: Engine<C>, k: nat :: around.run(e, k).timer == []
  }

  lemma TimerInRound<C(!new)>(around: Surroundings<C>, e: Engine<C>)
    requires LeavesTimerAlone(around)
    ensures OneRound(around, e).timer == Timer.Ticks(e.timer, 1)
  {
    hide Ppu.Dot, PpuTiming.ApplyAll, PpuTiming.Dots, DmaWrites, ApuWrites, SerialWrites, OamDma.Ticks,
      Audio.Tick, Serial.Ticks, Timer.Ticks, Serial.Active, PpuTiming.Inv, Timer.Inv, OamDma.Inv, Audio.Inv, Serial.Inv;
  }

  /** Left alone by the program, the timer in the engine is the timer ticked by itself. */
  lemma {:induction false} TimerAlone<C(!new)>(around: Surroundings<C>, e: Engine<C>, n: nat)
    requires LeavesTimerAlone(around)
    ensures Tick(around, e, n).timer == Timer.Ticks(e.timer, n)
    decreases n
  {
    hide Tick, OneRound, LeavesTimerAlone, Timer.Advance;
    if n == 0 {
      TickNone(around, e);
    } else {
      TimerAlone(around, e, n - 1);
      TickLast(around, e, n);
      TimerInRound(around, Tick(around, e, n - 1));
      Timer.TicksSplit(e.timer, n - 1, 1);
    }
  }

  // ---------------------------------------------------------------- the processor and sound

  /** What the processor keeps to itself nothing else in the round touches. */
  lemma CoreInRound<C>(around: Surroundings<C>, e: Engine<C>)
    ensures OneRound(around, e).core == around.run(e, 1).core
  {
    hide Ppu.Dot, PpuTiming.ApplyAll, PpuTiming.Dots, TimerWrites, DmaWrites, ApuWrites, SerialWrites, OamDma.Ticks,
      Audio.Tick, Serial.Ticks, Timer.Ticks, Serial.Active, PpuTiming.Inv, Timer.Inv, OamDma.Inv, Audio.Inv, Serial.Inv;
  }

  /** A processor that counts its ticks counts exactly the ticks asked for. */
  lemma ProcessorGetsEveryTick<C(!new)>(around: Surroundings<C>, count: C -> int, e: Engine<C>, n: nat)
    requires forall f: Engine<C>, k: nat :: count(around.run(f, k).core) == count(f.core) + k
    ensures count(Tick(around, e, n).core) == count(e.core) + n
  {
    NeverSpins(around);
    var clock := (f: Engine<C>) => count(f.core);
    ClockOfProcessor(around, count, clock);
    hide Components, Schedule, ClockOf;
    ExactlyTheTicks(Components(around), CPU, clock, e, n);
  }

  lemma ClockOfProcessor<C(!new)>(around: Surroundings<C>, count: C -> int, clock: Engine<C> -> int)
    requires forall f: Engine<C>, k: nat :: count(around.run(f, k).core) == count(f.core) + k
    requires forall f: Engine<C> :: clock(f) == count(f.core)
    ensures ClockOf(Components(around), CPU, clock)
  {
    hide Ppu.Dot, PpuTiming.ApplyAll, PpuTiming.Dots, TimerWrites, DmaWrites, ApuWrites, SerialWrites, OamDma.Ticks,
      Audio.Tick, Serial.Ticks, Timer.Ticks, Serial.Active, PpuTiming.Inv, Timer.Inv, OamDma.Inv, Audio.Inv, Serial.Inv;
  }

  /** The processor never switches the audio unit on or off. */
  ghost predicate LeavesSoundOn<C(!new)>(around: Surroundings<C>) {
    forall e: Engine<C>, k: nat, w :: w in around.run(e, k).apu ==> w.0 != Audio.MasterControl
  }

  lemma {:induction false} WritesLeaveSoundOn(a: SaneApu, ws: seq<(Audio.Register, byte)>)
    requires forall w :: w in ws ==> w.0 != Audio.MasterControl
    ensures var b := ApuWrites(a, ws); b.enabled == a.enabled && b.accumulator == a.accumulator
    decreases |ws|
  {
    hide Audio.Write, Audio.Inv;
    if ws != [] {
      Audio.WriteKeeps(a, ws[0].0, ws[0].1);
      ApuRuns.WriteLeavesAccumulator(a, ws[0].0, ws[0].1);
      WriteLeavesSoundOn(a, ws[0].0, ws[0].1);
      assert forall w :: w in ws[1..] ==> w in ws;
      WritesLeaveSoundOn(Audio.Write(a, ws[0].0, ws[0].1), ws[1..]);
    }
  }

  lemma WriteLeavesSoundOn(a: Audio.Apu, r: Audio.Register, v: byte)
    requires r != Audio.MasterControl
    ensures Audio.Write(a, r, v).enabled == a.enabled
  {
    hide Audio.PulseSetLength, Audio.PulseSetEnvelope, Audio.PulseSetLow, Audio.PulseControl, Audio.WaveSetDac,
      Audio.WaveSetLength, Audio.WaveSetLevel, Audio.WaveSetLow, Audio.WaveControl, Audio.WavePrepared,
      Audio.NoiseSetLength, Audio.NoiseSetEnvelope, Audio.NoiseSetRandomness, Audio.NoiseControl, Bit,
      Audio.EnvelopeOf, Audio.SweepOf, Audio.NextSkipsLength, Audio.Spoiled;
  }

  lemma FrameLeavesSoundOn(a: Audio.Apu, rate: sampleRate, divider: word, n: nat)
    requires Audio.Inv(a)
    ensures Audio.Tick(a, rate, divider, n).0.enabled == a.enabled
  {
    hide Resampler.Play, Audio.FrameStep, Audio.Inv;
  }

  lemma SoundBeforeApu<C>(around: Surroundings<C>, e: Engine<C>)
    ensures var f := BeforeApu(around, e); f.apu == ApuWrites(e.apu, around.run(e, 1).apu) && f.sound == e.sound
  {
    hide PpuTiming.ApplyAll, PpuTiming.Dots, TimerWrites, DmaWrites, ApuWrites, SerialWrites, OamDma.Ticks,
      Timer.Ticks, PpuTiming.Inv, Timer.Inv, OamDma.Inv, Audio.Inv, Serial.Inv;
  }

  lemma SoundFromApu<C>(around: Surroundings<C>, e: Engine<C>)
    requires e.apu.enabled
    ensures var f := ApuTick(around, e, 1);
      && f.apu.enabled
      && |f.sound| == |e.sound| + (e.apu.accumulator + around.rate) / Resampler.MASTER_CLOCK
      && f.apu.accumulator == (e.apu.accumulator + around.rate) % Resampler.MASTER_CLOCK
  {
    hide Audio.Tick, Audio.Inv, OamDma.Inv, Timer.Inv, PpuTiming.Inv, Serial.Inv;
    ApuRuns.TickExact(e.apu, around.rate, e.timer.div, 1);
    FrameLeavesSoundOn(e.apu, around.rate, e.timer.div, 1);
  }

  lemma SoundInRound<C(!new)>(around: Surroundings<C>, e: Engine<C>)
    requires LeavesSoundOn(around) && e.apu.enabled
    ensures var f := OneRound(around, e);
      && f.apu.enabled
      && |f.sound| == |e.sound| + (e.apu.accumulator + around.rate) / Resampler.MASTER_CLOCK
      && f.apu.accumulator == (e.apu.accumulator + around.rate) % Resampler.MASTER_CLOCK
  {
    WritesLeaveSoundOn(e.apu, around.run(e, 1).apu);
    hide BeforeApu, ApuTick, Serial.Ticks, Serial.Active, ApuWrites, LeavesSoundOn, Serial.Inv, Audio.Inv, OamDma.Inv,
      Timer.Inv, PpuTiming.Inv;
    SoundBeforeApu(around, e);
    SoundFromApu(around, BeforeApu(around, e));
  }

  /** With the audio unit left on, the machine has emitted exactly its running time at the output
      rate, for ever and for every program, and the accumulator is the remainder. */
  lemma {:induction false} EngineSound<C(!new)>(around: Surroundings<C>, e: Engine<C>, n: nat)
    requires LeavesSoundOn(around) && e.apu.enabled
    ensures var f := Tick(around, e, n);
      && f.apu.enabled
      && |f.sound| == |e.sound| + (e.apu.accumulator + n * around.rate) / Resampler.MASTER_CLOCK
      && f.apu.accumulator == (e.apu.accumulator + n * around.rate) % Resampler.MASTER_CLOCK
    decreases n
  {
    hide Tick, OneRound, LeavesSoundOn, Audio.Inv;
    if n == 0 {
      TickNone(around, e);
      ApuRuns.AccumulatorBelow(e.apu);
    } else {
      EngineSound(around, e, n - 1);
      TickLast(around, e, n);
      SoundInRound(around, Tick(around, e, n - 1));
      ApuRuns.Carry(e.apu.accumulator, n - 1, 1, around.rate);
    }
  }
}
