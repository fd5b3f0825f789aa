/** The line timing: an invariant that holds whatever the CPU writes between dots, the
    bounds on mode 3 it gives, and the soundness of the announced batches. */
module PpuTiming {
  import opened Common
  import opened PpuPipe
  import opened PpuPipeTiming
  import opened Ppu

  const MAX_DRAW_DOTS := 307
  const MIN_DRAW_DOTS := 172

  ghost predicate Inv(s: Ppu) {
    && s.ly < TOTAL_LINES
    && (s.mode == VBlank <==> s.ly >= VISIBLE_LINES)
    && (s.mode == OamScan ==> s.cycle < SCAN_DOTS && !s.pipe.windowActive)
    && (s.mode == OamScan && s.cycle == 0 ==> s.pipe.buffer == [])
    && (s.mode == VBlank ==> s.cycle < DOTS_PER_LINE && !s.pipe.windowActive)
    && (s.mode == HBlank ==> SCAN_DOTS + MIN_DRAW_DOTS <= s.cycle < DOTS_PER_LINE)
    && (s.mode != Drawing ==> s.pipe.penalty == 0)
    && (s.mode == Drawing ==> DrawingInv(s))
    && (!s.enabled ==> s.mode == OamScan && s.cycle == 2 && s.ly == 0)
  }

  ghost predicate DrawingInv(s: Ppu) {
    && PipeInv(s.pipe)
    && s.pipe.drawn < LCD_WIDTH
    && SCAN_DOTS <= s.cycle
    && s.cycle + Measure(s.pipe) <= SCAN_DOTS + MAX_DRAW_DOTS
    && s.cycle + Floor(s.pipe) >= SCAN_DOTS + MIN_DRAW_DOTS
  }

  lemma InvCanStep(s: Ppu)
    requires Inv(s)
    ensures CanStep(s)
  {
  }

  /** Every batch announced is at least one tick and never crosses the end of a phase. */
  lemma BatchPositive(s: Ppu)
    requires Inv(s) && s.enabled
    ensures 1 <= TickBatch(s)
    ensures s.mode == HBlank || s.mode == VBlank ==> TickBatch(s) == DOTS_PER_LINE - s.cycle
    ensures s.mode == OamScan ==> TickBatch(s) == SCAN_DOTS - s.cycle
  {
    if s.mode == Drawing {
      MeasureNonNegative(s.pipe);
    }
  }

  // ---------------------------------------------------------------- preservation

  /** Updating the STAT line touches nothing but the line itself and the log. */
  lemma StatOnly(s: Ppu)
    ensures UpdateStat(s) == s.(statLine := UpdateStat(s).statLine, log := UpdateStat(s).log)
  {
    hide StatCondition;
  }

  lemma ScanDotKeeps(s: Ppu, mem: Memory)
    requires s.cycle < SCAN_DOTS
    ensures var t := ScanDot(s, mem);
      t == s.(cycle := s.cycle + 1, pipe := s.pipe.(buffer := t.pipe.buffer))
  {
    hide GetObject, InScanline;
  }

  lemma {:induction false} ScanDotsKeep(s: Ppu, mem: Memory, k: nat)
    requires s.cycle + k <= SCAN_DOTS
    ensures var t := ScanDots(s, mem, k);
      t == s.(cycle := s.cycle + k, pipe := s.pipe.(buffer := t.pipe.buffer))
    decreases k
  {
    hide ScanDot;
    if k > 0 {
      ScanDotKeeps(s, mem);
      ScanDotsKeep(ScanDot(s, mem), mem, k - 1);
    }
  }

  lemma StartDrawingInv(p: Pipe, scx: byte)
    requires !p.windowActive && p.penalty == 0
    ensures var q := StartDrawing(p, scx);
      && PipeInv(q) && q.drawn == 0
      && Measure(q) == 18 + 11 * |p.buffer| + 12 + scx % 8 + LCD_WIDTH
      && Floor(q) == 12 + LCD_WIDTH
  {
  }

  lemma ScanInv(s: Ppu, mem: Memory, k: nat)
    requires Inv(s) && s.enabled && s.mode == OamScan && 1 <= k <= SCAN_DOTS - s.cycle
    ensures var t := Step(s, mem, k); Inv(t) && t.enabled && t.regs == s.regs
  {
    ScanDotsKeep(s, mem, k);
    var u := ScanDots(s, mem, k);
    StartDrawingInv(u.pipe, s.regs.scx);
    StatOnly(u.(initialAfterOn := false, mode := Drawing, pipe := StartDrawing(u.pipe, u.regs.scx)));
    hide DrawDot, ScanDots, UpdateStat, PipeInv, Measure, Floor;
  }

  lemma DrawingDotShape(s: Ppu, mem: Memory)
    requires s.pipe.drawn < LCD_WIDTH && s.ly < 0x100
    ensures var t, q := DrawingDot(s, mem), DrawDot(s.pipe, s.ly, s.regs, mem);
      t == s.(cycle := s.cycle + 1, pipe := q, mode := if q.drawn == LCD_WIDTH then HBlank else s.mode,
              statLine := t.statLine, log := t.log)
  {
    hide DrawDot, UpdateStat;
    StatOnly(s.(cycle := s.cycle + 1, pipe := DrawDot(s.pipe, s.ly, s.regs, mem), mode := HBlank));
  }

  lemma DrawingDotInv(s: Ppu, mem: Memory)
    requires Inv(s) && s.enabled && s.mode == Drawing
    ensures var t := DrawingDot(s, mem); Inv(t) && t.enabled && t.regs == s.regs
  {
    hide DrawingDot, DrawDot, PipeInv, Measure, Floor;
    DrawingDotShape(s, mem);
    DotProgress(s.pipe, s.ly, s.regs, mem);
    DrawnPipe(s, mem);
  }

  lemma HBlankInv(s: Ppu, k: nat)
    requires Inv(s) && s.enabled && s.mode == HBlank && 1 <= k <= DOTS_PER_LINE - s.cycle
    ensures var t := HBlankDots(s, k); Inv(t) && t.enabled && t.regs == s.regs
  {
    hide PipeInv, Measure, Floor, UpdateStat;
    if s.cycle + k == DOTS_PER_LINE {
      StatOnly(EndedLine(s.(cycle := s.cycle + k)));
    }
  }

  lemma VBlankInv(s: Ppu, k: nat)
    requires Inv(s) && s.enabled && s.mode == VBlank && 1 <= k <= DOTS_PER_LINE - s.cycle
    ensures var t := VBlankDots(s, k); Inv(t) && t.enabled && t.regs == s.regs
  {
    hide PipeInv, Measure, Floor, UpdateStat;
    if s.cycle + k == DOTS_PER_LINE {
      StatOnly(EndedBlankLine(s.(cycle := s.cycle + k)));
    }
  }

  lemma StepInv(s: Ppu, mem: Memory, k: nat)
    requires Inv(s) && s.enabled && 1 <= k <= TickBatch(s)
    ensures Inv(Step(s, mem, k)) && Step(s, mem, k).enabled
    ensures Step(s, mem, k).regs == s.regs
  {
    BatchPositive(s);
    hide Inv, ScanDots, DrawingDot, FinishScan, HBlankDots, VBlankDots;
    match s.mode {
      case OamScan => ScanInv(s, mem, k);
      case Drawing => DrawingDotInv(s, mem);
      case HBlank => HBlankInv(s, k);
      case VBlank => VBlankInv(s, k);
    }
  }

  lemma DotInv(s: Ppu, mem: Memory)
    requires Inv(s)
    ensures Inv(Dot(s, mem)) && Dot(s, mem).enabled == s.enabled
  {
    if s.enabled {
      BatchPositive(s);
      StepInv(s, mem, 1);
    }
  }

  lemma ApplyInv(s: Ppu, w: PpuWrite)
    requires Inv(s)
    ensures Inv(Apply(s, w))
    ensures s.enabled && w != WriteEnable(false) ==>
      var t := Apply(s, w); t.enabled && t.mode == s.mode && t.cycle == s.cycle && t.ly == s.ly && t.pipe == s.pipe
  {
    hide UpdateStat, PipeInv, Measure, Floor;
    match w {
      case WriteRegs(regs) =>
      case WriteLyc(lyc) => StatOnly(s.(lyc := lyc));
      case WriteStat(sources) => StatOnly(s.(sources := sources));
      case WriteEnable(on) => StatOnly(s.(enabled := true));
    }
  }

  // ---------------------------------------------------------------- runs of dots

  /** `n` ticks, one dot at a time. */
  ghost function Dots(s: Ppu, mem: Memory, n: nat): (t: Ppu)
    requires Inv(s)
    ensures Inv(t)
    decreases n
  {
    if n == 0 then s
    else
      DotInv(s, mem);
      Dots(Dot(s, mem), mem, n - 1)
  }

  lemma DotsUnfold(s: Ppu, mem: Memory, n: nat)
    requires Inv(s) && n > 0
    ensures Inv(Dot(s, mem)) && Dots(s, mem, n) == Dots(Dot(s, mem), mem, n - 1)
  {
    DotInv(s, mem);
    hide Inv, Dot;
  }

  lemma NoDots(s: Ppu, mem: Memory)
    requires Inv(s)
    ensures Dots(s, mem, 0) == s
  {
    hide Inv, Dot;
  }

  lemma {:induction false} DotsSplit(s: Ppu, mem: Memory, a: nat, b: nat)
    requires Inv(s)
    ensures Dots(s, mem, a + b) == Dots(Dots(s, mem, a), mem, b)
    decreases a
  {
    hide *;
    InvCanStep(s);
    if a == 0 {
      NoDots(s, mem);
    } else {
      DotsUnfold(s, mem, a);
      DotsUnfold(s, mem, a + b);
      DotsSplit(Dot(s, mem), mem, a - 1, b);
    }
  }

  /** What one step of the unit over `k` ticks consumes. */
  function Consumed(s: Ppu, k: nat): nat {
    if s.mode == Drawing then 1 else k
  }

  lemma WithinScan(s: Ppu, mem: Memory)
    requires Inv(s) && s.enabled && s.mode == OamScan && s.cycle + 1 < SCAN_DOTS
    ensures var t := Dot(s, mem);
      t == ScanDot(s, mem) && Inv(t) && t.enabled && t.mode == OamScan && t.cycle == s.cycle + 1
  {
    ScanDotKeeps(s, mem);
    hide ScanDot;
    assert ScanDots(s, mem, 1) == ScanDots(ScanDot(s, mem), mem, 0);
  }

  lemma {:induction false} ScanBatchIsDots(s: Ppu, mem: Memory, k: nat)
    requires Inv(s) && s.enabled && s.mode == OamScan && 1 <= k <= SCAN_DOTS - s.cycle
    ensures FinishScan(ScanDots(s, mem, k)) == Dots(s, mem, k)
    decreases k
  {
    InvCanStep(s);
    DotsUnfold(s, mem, k);
    if k == 1 {
      assert Dot(s, mem) == FinishScan(ScanDots(s, mem, 1));
    } else {
      WithinScan(s, mem);
      assert ScanDots(s, mem, k) == ScanDots(ScanDot(s, mem), mem, k - 1);
    }
    assert k == 1 ==> Dots(Dot(s, mem), mem, k - 1) == Dot(s, mem);
    hide *;
    if k > 1 {
      ScanBatchIsDots(ScanDot(s, mem), mem, k - 1);
    }
  }

  lemma WithinBlankLine(s: Ppu, mem: Memory)
    requires Inv(s) && s.enabled && (s.mode == HBlank || s.mode == VBlank) && s.cycle + 1 < DOTS_PER_LINE
    ensures var t := Dot(s, mem); t == s.(cycle := s.cycle + 1) && Inv(t)
  {
    hide PipeInv, Measure, Floor, DrawDot;
  }

  lemma {:induction false} BlankBatchIsDots(s: Ppu, mem: Memory, k: nat)
    requires Inv(s) && s.enabled && (s.mode == HBlank || s.mode == VBlank) && 1 <= k <= DOTS_PER_LINE - s.cycle
    ensures Step(s, mem, k) == Dots(s, mem, k)
    decreases k
  {
    InvCanStep(s);
    DotsUnfold(s, mem, k);
    if k == 1 {
      LastBlankDot(s, mem);
    } else {
      WithinBlankLine(s, mem);
      BlankStepShift(s, mem, k);
    }
    hide *;
    if k > 1 {
      BlankBatchIsDots(s.(cycle := s.cycle + 1), mem, k - 1);
    }
  }

  lemma LastBlankDot(s: Ppu, mem: Memory)
    requires Inv(s) && s.enabled && (s.mode == HBlank || s.mode == VBlank)
    ensures Dots(s, mem, 1) == Step(s, mem, 1)
  {
    DotsUnfold(s, mem, 1);
    hide Inv, HBlankDots, VBlankDots, ScanDots, DrawingDot;
  }

  lemma BlankStepShift(s: Ppu, mem: Memory, k: nat)
    requires Inv(s) && s.enabled && (s.mode == HBlank || s.mode == VBlank) && 2 <= k <= DOTS_PER_LINE - s.cycle
    ensures Inv(s.(cycle := s.cycle + 1))
    ensures Step(s, mem, k) == Step(s.(cycle := s.cycle + 1), mem, k - 1)
  {
    hide EndLine, EndBlankLine, ScanDots, DrawingDot, PipeInv, Measure, Floor;
  }

  /** A step over any part of the announced batch equals that many single dots,
      including the order of everything sent to the screen and the interrupt controller. */
  lemma BatchIsDots(s: Ppu, mem: Memory, k: nat)
    requires Inv(s) && s.enabled && 1 <= k <= TickBatch(s)
    ensures Step(s, mem, k) == Dots(s, mem, Consumed(s, k))
  {
    BatchPositive(s);
    match s.mode {
      case OamScan => ScanBatchIsDots(s, mem, k);
      case Drawing =>
        DotInv(s, mem);
        assert Dots(s, mem, 1) == Dots(Dot(s, mem), mem, 0);
      case _ => BlankBatchIsDots(s, mem, k);
    }
  }

  // ---------------------------------------------------------------- runs with CPU writes

  /** Everything the CPU does before one dot, and the memory the unit sees during it. */
  datatype Input = Input(writes: seq<PpuWrite>, mem: Memory)

  ghost predicate LcdLeftOn(i: Input) {
    forall w :: w in i.writes ==> w != WriteEnable(false)
  }

  ghost function ApplyAll(s: Ppu, ws: seq<PpuWrite>): (t: Ppu)
    requires Inv(s)
    ensures Inv(t)
    ensures s.enabled && (forall w :: w in ws ==> w != WriteEnable(false)) ==>
      t.enabled && t.mode == s.mode && t.cycle == s.cycle && t.ly == s.ly && t.pipe == s.pipe
    decreases |ws|
  {
    if ws == [] then s
    else
      ApplyInv(s, ws[0]);
      assert ws[0] in ws && forall w :: w in ws[1..] ==> w in ws;
      ApplyAll(Apply(s, ws[0]), ws[1..])
  }

  ghost function RunDot(s: Ppu, i: Input): (t: Ppu)
    requires Inv(s)
    ensures Inv(t)
    ensures s.enabled && LcdLeftOn(i) ==> t.enabled
  {
    var a := ApplyAll(s, i.writes);
    DotInv(a, i.mem);
    Dot(a, i.mem)
  }

  /** A run of the unit, one element of `inputs` per dot. */
  ghost function Run(s: Ppu, inputs: seq<Input>): (t: Ppu)
    requires Inv(s)
    ensures Inv(t)
    ensures s.enabled && (forall i :: i in inputs ==> LcdLeftOn(i)) ==> t.enabled
  {
    if inputs == [] then s else RunDot(Run(s, inputs[..|inputs| - 1]), inputs[|inputs| - 1])
  }

  ghost predicate PowerOn(s: Ppu) {
    && s.enabled && s.mode == OamScan && s.ly == 0 && s.cycle == 0
    && !s.pipe.windowActive && s.pipe.penalty == 0 && s.pipe.buffer == [] && s.log == []
  }

  lemma PowerOnInv(s: Ppu)
    requires PowerOn(s)
    ensures Inv(s)
  {
  }

  /** Whatever the CPU writes and however often it turns the LCD off and on, the unit always
      has a positive batch to announce and so the scheduler never stalls on it. */
  lemma NeverStalls(s: Ppu, inputs: seq<Input>)
    requires PowerOn(s)
    ensures Inv(s) && Inv(Run(s, inputs)) && 1 <= TickBatch(Run(s, inputs))
    ensures Run(s, inputs).mode == HBlank ==> Run(s, inputs).cycle < DOTS_PER_LINE
  {
    PowerOnInv(s);
    if Run(s, inputs).enabled {
      BatchPositive(Run(s, inputs));
    }
  }

  // ---------------------------------------------------------------- the length of mode 3

  /** A dot of the unit that draws: the pipeline moves by one, and the unit leaves drawing
      mode exactly when the line is complete. */
  lemma DrawingDotMoves(s: Ppu, mem: Memory)
    requires Inv(s) && s.enabled && s.mode == Drawing
    ensures var t := Dot(s, mem);
      && Inv(t) && t.enabled && t.cycle == s.cycle + 1 < DOTS_PER_LINE && t.ly == s.ly && t.regs == s.regs
      && t.pipe == DrawDot(s.pipe, s.ly, s.regs, mem)
      && t.mode == (if t.pipe.drawn == LCD_WIDTH then HBlank else Drawing)
  {
    hide DrawingDot, DrawDot, PipeInv, Measure, Floor;
    DotInv(s, mem);
    MeasureNonNegative(s.pipe);
    DrawingDotShape(s, mem);
  }

  lemma DrawingStep(s: Ppu, i: Input)
    requires Inv(s) && s.enabled && s.mode == Drawing && LcdLeftOn(i)
    ensures var t := RunDot(s, i);
      && t.enabled && t.cycle == s.cycle + 1 && (t.mode == Drawing || t.mode == HBlank)
      && 0 <= Measure(t.pipe) < Measure(s.pipe)
      && Floor(t.pipe) >= Floor(s.pipe) - 1
      && t.regs == ApplyAll(s, i.writes).regs
      && t.pipe == DrawDot(s.pipe, s.ly, t.regs, i.mem)
      && (t.mode == HBlank ==> Floor(t.pipe) == 0 && t.pipe.drawn == LCD_WIDTH)
  {
    var a := ApplyAll(s, i.writes);
    DrawnPipe(a, i.mem);
    hide ApplyAll, DrawDot, PipeInv, Measure, Floor, Inv, Dot;
    DrawingDotMoves(a, i.mem);
  }

  lemma DrawnPipe(s: Ppu, mem: Memory)
    requires Inv(s) && s.mode == Drawing
    ensures var q := DrawDot(s.pipe, s.ly, s.regs, mem);
      && 0 <= Measure(q) < Measure(s.pipe) && Floor(q) >= Floor(s.pipe) - 1
      && (q.drawn == LCD_WIDTH ==> Floor(q) == 0)
  {
    DotProgress(s.pipe, s.ly, s.regs, mem);
    MeasureNonNegative(DrawDot(s.pipe, s.ly, s.regs, mem));
    hide DrawDot;
  }

  /** The number of dots until drawing ends, under an endless supply of inputs. */
  ghost function DrawLength(s: Ppu, env: nat -> Input, t: nat): nat
    requires Inv(s) && s.enabled && s.mode == Drawing
    requires forall i :: LcdLeftOn(env(i))
    decreases Measure(s.pipe)
  {
    DrawingStep(s, env(t));
    var next := RunDot(s, env(t));
    1 + if next.mode == Drawing then DrawLength(next, env, t + 1) else 0
  }

  ghost function RunFor(s: Ppu, env: nat -> Input, t: nat, n: nat): (r: Ppu)
    requires Inv(s)
    ensures Inv(r)
    decreases n
  {
    if n == 0 then s else RunFor(RunDot(s, env(t)), env, t + 1, n - 1)
  }

  lemma {:induction false} DrawLengthWithin(s: Ppu, env: nat -> Input, t: nat)
    requires Inv(s) && s.enabled && s.mode == Drawing
    requires forall i :: LcdLeftOn(env(i))
    ensures Floor(s.pipe) <= DrawLength(s, env, t) <= Measure(s.pipe)
    decreases Measure(s.pipe)
  {
    hide RunDot, Inv, PipeInv, Measure, Floor, ApplyAll, DrawDot;
    DrawingStep(s, env(t));
    var next := RunDot(s, env(t));
    if next.mode == Drawing {
      DrawLengthWithin(next, env, t + 1);
    }
  }

  lemma {:induction false} DrawLengthIsExit(s: Ppu, env: nat -> Input, t: nat, n: nat)
    requires Inv(s) && s.enabled && s.mode == Drawing
    requires forall i :: LcdLeftOn(env(i))
    requires n <= DrawLength(s, env, t)
    ensures var r := RunFor(s, env, t, n);
      && r.cycle == s.cycle + n
      && r.mode == if n < DrawLength(s, env, t) then Drawing else HBlank
    decreases Measure(s.pipe)
  {
    hide RunDot, Inv, PipeInv, Measure, Floor, ApplyAll, DrawDot;
    DrawingStep(s, env(t));
    var next := RunDot(s, env(t));
    if n > 0 && next.mode == Drawing {
      DrawLengthIsExit(next, env, t + 1, n - 1);
    } else if n > 0 {
      assert n == 1 && RunFor(s, env, t, 1) == RunFor(next, env, t + 1, 0);
    }
  }

  /** Drawing always ends: with the LCD left on and any registers written at any dot, mode 3
      lasts 172 to 307 dots, so h-blank begins well before dot 456. */
  lemma DrawingAlwaysEnds(s: Ppu, env: nat -> Input)
    requires Inv(s) && s.enabled && s.mode == Drawing && s.cycle == SCAN_DOTS
    requires forall i :: LcdLeftOn(env(i))
    ensures var n := DrawLength(s, env, 0);
      && MIN_DRAW_DOTS <= n <= MAX_DRAW_DOTS
      && (forall m :: 0 <= m < n ==> RunFor(s, env, 0, m).mode == Drawing)
      && RunFor(s, env, 0, n).mode == HBlank
      && RunFor(s, env, 0, n).cycle == SCAN_DOTS + n < DOTS_PER_LINE
  {
    DrawLengthWithin(s, env, 0);
    var n := DrawLength(s, env, 0);
    forall m | 0 <= m < n ensures RunFor(s, env, 0, m).mode == Drawing {
      DrawLengthIsExit(s, env, 0, m);
    }
    DrawLengthIsExit(s, env, 0, n);
  }

  ghost predicate WindowLeftOff(i: Input) {
    forall w :: w in i.writes && w.WriteRegs? ==> !w.regs.windowEnabled
  }

  lemma ApplyAllWindowOff(s: Ppu, ws: seq<PpuWrite>)
    requires Inv(s) && !s.regs.windowEnabled
    requires forall w :: w in ws && w.WriteRegs? ==> !w.regs.windowEnabled
    ensures !ApplyAll(s, ws).regs.windowEnabled
    decreases |ws|
  {
    if ws != [] {
      ApplyInv(s, ws[0]);
      ApplyAllWindowOff(Apply(s, ws[0]), ws[1..]);
    }
  }

  lemma PlainDot(p: Pipe, ly: byte, regs: Regs, mem: Memory)
    requires PipeInv(p) && p.drawn < LCD_WIDTH && !regs.windowEnabled
    requires p.buffer == [] && p.sprite.target == None && p.penalty == 0 && !p.windowActive
    ensures var q := DrawDot(p, ly, regs, mem);
      && q.buffer == [] && q.sprite.target == None && q.penalty == 0 && !q.windowActive
      && Measure(q) == Measure(p) - 1
      && (q.drawn == LCD_WIDTH ==> Measure(q) == 18)
  {
    ShiftProgress(p, ly, regs, mem);
    assert DrawDot(p, ly, regs, mem) == Shift(p, ly, regs, mem);
  }

  lemma {:induction false} PlainDrawLength(s: Ppu, env: nat -> Input, t: nat)
    requires Inv(s) && s.enabled && s.mode == Drawing && !s.regs.windowEnabled
    requires forall i :: LcdLeftOn(env(i)) && WindowLeftOff(env(i))
    requires s.pipe.buffer == [] && s.pipe.sprite.target == None && s.pipe.penalty == 0 && !s.pipe.windowActive
    ensures DrawLength(s, env, t) == Measure(s.pipe) - 18
    decreases Measure(s.pipe)
  {
    hide DrawDot, Shift, ApplyAll, RunDot, PipeInv, Measure, Floor;
    DrawingStep(s, env(t));
    ApplyAllWindowOff(s, env(t).writes);
    var next := RunDot(s, env(t));
    PlainDot(s.pipe, s.ly, next.regs, env(t).mem);
    if next.mode == Drawing {
      PlainDrawLength(next, env, t + 1);
    }
  }

  /** With no buffered sprite and the window off, mode 3 lasts exactly 172 + SCX mod 8 dots,
      with SCX taken at the end of the OAM scan. */
  lemma PlainLineLength(scanned: Ppu, env: nat -> Input)
    requires scanned.enabled && scanned.mode == OamScan && scanned.cycle == SCAN_DOTS && scanned.ly < VISIBLE_LINES
    requires !scanned.pipe.windowActive && scanned.pipe.penalty == 0
    requires scanned.pipe.buffer == [] && !scanned.regs.windowEnabled
    requires forall i :: LcdLeftOn(env(i)) && WindowLeftOff(env(i))
    ensures Inv(FinishScan(scanned)) && FinishScan(scanned).mode == Drawing
    ensures DrawLength(FinishScan(scanned), env, 0) == MIN_DRAW_DOTS + scanned.regs.scx % 8
  {
    StartDrawingInv(scanned.pipe, scanned.regs.scx);
    PlainDrawLength(FinishScan(scanned), env, 0);
  }
}
