/** The pixel processing unit as the program has it: an object whose fields the handlers
    update in place, ticked in batches. Every method is tied to the state machine. */
module PpuUnit {
  import opened Common
  import opened Pixels
  import opened PpuPipe
  import opened Ppu
  import opened PpuTiming

  class PixelProcessingUnit {
    var enabled: bool
    var mode: Mode
    var scanlineCompare: byte
    var currentScanline: byte
    var scanlineCycle: nat

    var backgroundFifo: Fifo
    var windowLine: byte
    var windowFetcherPenalty: nat
    var windowActiveInScanline: bool
    var pixelsDrawnInScanline: nat
    var pixelsToDiscard: nat
    var pixelFetcher: Fetcher

    var spriteFifo: Fifo
    var spriteBuffer: ObjectBuffer
    var spriteFetcher: SpriteFetcher

    var interruptSources: StatSources
    var statLine: bool
    var scanlineBuffer: LineBuffer
    var initialStateAfterOn: bool
    var latchedLyLycBit: bool
    var regs: Regs

    /** Everything sent to the screen and the interrupt controller so far. */
    var log: seq<Event>

    ghost function DrawState(): Pipe
      reads this`backgroundFifo, this`pixelFetcher, this`spriteFifo, this`spriteBuffer, this`spriteFetcher
      reads this`windowActiveInScanline, this`windowFetcherPenalty, this`windowLine
      reads this`pixelsDrawnInScanline, this`pixelsToDiscard, this`scanlineBuffer
    {
      Pipe(backgroundFifo, pixelFetcher, spriteFifo, spriteBuffer, spriteFetcher,
           windowActiveInScanline, windowFetcherPenalty, windowLine,
           pixelsDrawnInScanline, pixelsToDiscard, scanlineBuffer)
    }

    ghost function State(): Ppu
      reads this
    {
      Ppu(enabled, mode, currentScanline, scanlineCycle, scanlineCompare, interruptSources, statLine,
          initialStateAfterOn, latchedLyLycBit, regs, DrawState(), log)
    }

    /** Switched on, at the first dot of line 0. */
    constructor ()
      ensures PowerOn(State()) && Inv(State())
    {
      enabled, mode, scanlineCompare, currentScanline, scanlineCycle := true, OamScan, 0, 0, 0;
      backgroundFifo, windowLine, windowFetcherPenalty, windowActiveInScanline := [], 0, 0, false;
      pixelsDrawnInScanline, pixelsToDiscard := 0, 0;
      pixelFetcher := Fetcher(0, TileAddress, 0, 0, 0, seq(8, i => TRANSPARENT), 0, true);
      spriteFifo, spriteBuffer := [], [];
      spriteFetcher := SpriteFetcher(SpriteAddress, 0, None, None, 0, None, 0, 0);
      interruptSources, statLine := StatSources(false, false, false, false), false;
      scanlineBuffer := seq(LCD_WIDTH, i => 0);
      initialStateAfterOn, latchedLyLycBit := false, false;
      regs := Regs(false, false, false, false, false, false, false, 0, 0, 0, 0, 0, 0, 0);
      log := [];
    }

    method VisibleScanline() returns (ly: nat)
      ensures ly == VisibleLy(State())
    {
      ly := if mode == HBlank && scanlineCycle >= 452 then (currentScanline + 1) % 0x100 else currentScanline;
    }

    method NextBatch() returns (ticks: nat)
      ensures ticks == TickBatch(State())
    {
      if !enabled { return UNBOUNDED; }
      match mode {
        case HBlank => ticks := (DOTS_PER_LINE - scanlineCycle) % 0x1_0000_0000;
        case VBlank => ticks := (DOTS_PER_LINE - scanlineCycle) % 0x1_0000_0000;
        case OamScan => ticks := (SCAN_DOTS - scanlineCycle) % 0x1_0000_0000;
        case Drawing => ticks := 1;
      }
    }

    method UpdateStatLine()
      modifies this`statLine, this`log
      ensures State() == UpdateStat(old(State()))
    {
      if !enabled { return; }
      var ly := VisibleScanline();
      var newStatLine :=
        || (ly == scanlineCompare && interruptSources.lycSelect)
        || (mode == HBlank && interruptSources.mode0)
        || (mode == VBlank && interruptSources.mode1)
        || ((mode == OamScan || currentScanline == VISIBLE_LINES) && interruptSources.mode2);
      if !statLine && newStatLine {
        log := log + [StatInterrupt];
      }
      statLine := newStatLine;
    }

    // -------------------------------------------------------------- register writes

    method WriteRegisters(regs: Regs)
      modifies this`regs
      ensures State() == Apply(old(State()), WriteRegs(regs))
    {
      this.regs := regs;
    }

    method WriteScanlineCompare(lyc: byte)
      modifies this
      ensures State() == Apply(old(State()), WriteLyc(lyc))
    {
      scanlineCompare := lyc;
      UpdateStatLine();
    }

    method WriteInterruptSources(sources: StatSources)
      modifies this
      ensures State() == Apply(old(State()), WriteStat(sources))
    {
      interruptSources := sources;
      UpdateStatLine();
    }

    method TurnOff()
      requires enabled
      modifies this
      ensures State() == SetEnabled(old(State()), false)
    {
      hide DrawState, ResetFetcher, UpdateStat;
      ClearLine();
      enabled := false;
      latchedLyLycBit := scanlineCompare == currentScanline;
      currentScanline := 0;
      scanlineCycle := 2;
      initialStateAfterOn := true;
      mode := OamScan;
    }

    method TurnLcd(on: bool)
      modifies this
      ensures State() == Apply(old(State()), WriteEnable(on))
    {
      hide UpdateStat, ResetFetcher, DrawState;
      if enabled && !on {
        TurnOff();
        return;
      }
      if !enabled && on {
        enabled := true;
        UpdateStatLine();
      }
    }

    method ClearLine()
      modifies this`windowLine, this`windowFetcherPenalty, this`windowActiveInScanline
      modifies this`pixelsDrawnInScanline, this`pixelsToDiscard, this`backgroundFifo, this`pixelFetcher
      ensures var p := old(DrawState());
        DrawState() == p.(windowLine := 0, penalty := 0, windowActive := false,
                          drawn := 0, discard := 0, bg := [], fetcher := ResetFetcher(p.fetcher))
    {
      hide ResetFetcher;
      windowLine := 0;
      windowFetcherPenalty := 0;
      windowActiveInScanline := false;
      pixelsDrawnInScanline := 0;
      pixelsToDiscard := 0;
      backgroundFifo := [];
      pixelFetcher := ResetFetcher(pixelFetcher);
    }

    // -------------------------------------------------------------- handlers

    method ScanNext(mem: Memory)
      requires scanlineCycle < SCAN_DOTS
      modifies this`scanlineCycle, this`spriteBuffer
      ensures State() == ScanDot(old(State()), mem)
    {
      hide GetObject, InScanline;
      var odd := scanlineCycle % 2 != 0;
      scanlineCycle := scanlineCycle + 1;
      if odd { return; }
      var candidate := GetObject(scanlineCycle / 2, mem);
      if InScanline(candidate, ObjectHeight(regs.tallObjects), currentScanline)
        && |spriteBuffer| < MAX_OBJECTS_PER_LINE
      {
        spriteBuffer := spriteBuffer + [candidate];
      }
    }

    method ScanObjects(count: nat, mem: Memory)
      requires scanlineCycle + count <= SCAN_DOTS
      modifies this`scanlineCycle, this`spriteBuffer
      ensures State() == ScanDots(old(State()), mem, count)
    {
      hide ScanDot;
      ghost var start := State();
      var i := 0;
      while i < count
        invariant 0 <= i <= count
        invariant State().cycle == start.cycle + i && start.cycle + count <= SCAN_DOTS
        invariant ScanDots(State(), mem, count - i) == ScanDots(start, mem, count)
      {
        ScanDotKeeps(State(), mem);
        ScanNext(mem);
        i := i + 1;
      }
    }

    method BeginDrawing()
      modifies this`pixelFetcher, this`backgroundFifo, this`spriteFetcher, this`spriteFifo
      modifies this`pixelsDrawnInScanline, this`pixelsToDiscard
      ensures DrawState() == StartDrawing(old(DrawState()), regs.scx)
    {
      hide ResetFetcher, ResetSprite;
      pixelFetcher := ResetFetcher(pixelFetcher);
      backgroundFifo := [];
      spriteFetcher := ResetSprite(spriteFetcher);
      spriteFifo := [];
      pixelsDrawnInScanline := 0;
      pixelsToDiscard := regs.scx % 8;
    }

    method HandleScanOam(numTicks: nat, mem: Memory) returns (consumed: nat)
      requires enabled && mode == OamScan && scanlineCycle < SCAN_DOTS && numTicks > 0
      modifies this
      ensures consumed == Min(numTicks, TickBatch(old(State())))
      ensures State() == FinishScan(ScanDots(old(State()), mem, consumed))
    {
      hide UpdateStat, ScanDots, StartDrawing, DrawState;
      var batch := NextBatch();
      consumed := Min(numTicks, batch);
      ScanObjects(consumed, mem);
      if scanlineCycle >= SCAN_DOTS {
        initialStateAfterOn := false;
        mode := Drawing;
        BeginDrawing();
        UpdateStatLine();
      }
    }

    method TickPixelFetcher(mem: Memory)
      modifies this`pixelFetcher, this`backgroundFifo
      ensures DrawState() == FetchBackground(old(DrawState()), currentScanline, regs, mem)
    {
      var fetched := TickFetcher(pixelFetcher, backgroundFifo, windowActiveInScanline, windowLine, currentScanline,
        regs, mem);
      pixelFetcher, backgroundFifo := fetched.0, fetched.1;
    }

    method TickSpriteFetcher(mem: Memory)
      modifies this`spriteFetcher, this`spriteFifo
      ensures DrawState() == FetchSprite(old(DrawState()), currentScanline, regs, mem)
    {
      var fetched := TickSprite(spriteFetcher, spriteFifo, currentScanline, regs, mem);
      spriteFetcher, spriteFifo := fetched.0, fetched.1;
    }

    method StartWindowIfReached()
      modifies this`windowActiveInScanline, this`windowLine, this`backgroundFifo, this`pixelFetcher
      modifies this`pixelsToDiscard, this`windowFetcherPenalty
      ensures DrawState() == StartWindow(old(DrawState()), currentScanline, regs)
    {
      hide ResetFetcher;
      if !windowActiveInScanline && regs.windowEnabled
        && currentScanline >= regs.wy && pixelsDrawnInScanline >= regs.wx - 7
      {
        windowActiveInScanline := true;
        windowLine := if currentScanline == regs.wy then 0 else windowLine;
        backgroundFifo := [];
        pixelFetcher := ResetFetcher(pixelFetcher);
        pixelsToDiscard := 0;
        windowFetcherPenalty := if regs.wx > 0 then 6 else 0;
      }
    }

    method ClaimNextObject()
      modifies this`spriteBuffer, this`spriteFetcher
      ensures DrawState() == ClaimObject(old(DrawState()), regs)
    {
      if regs.objectsEnabled && spriteFetcher.target == None {
        var k := FirstAt(spriteBuffer, pixelsDrawnInScanline);
        if k < |spriteBuffer| {
          var next := spriteBuffer[k];
          spriteBuffer := spriteBuffer[..k] + spriteBuffer[k + 1..];
          spriteFetcher := SetTarget(spriteFetcher, next, windowActiveInScanline, regs.scx);
        }
      }
    }

    method DrawPixel(bgPixel: Pixel)
      requires pixelsDrawnInScanline < LCD_WIDTH
      modifies this`spriteFifo, this`scanlineBuffer, this`pixelsDrawnInScanline
      ensures DrawState() == EmitPixel(old(DrawState()), bgPixel, regs)
    {
      hide Emitted;
      var shade := Emitted(bgPixel, spriteFifo, regs);
      if |spriteFifo| > 0 {
        spriteFifo := spriteFifo[1..];
      }
      scanlineBuffer := scanlineBuffer[pixelsDrawnInScanline := shade];
      pixelsDrawnInScanline := pixelsDrawnInScanline + 1;
    }

    /** Everything a dot does once the window penalty is paid and a sprite may be claimed;
        `drawing` is whether the dot reached the end-of-line check. */
    method ShiftPixels(mem: Memory) returns (drawing: bool)
      requires pixelsDrawnInScanline < LCD_WIDTH
      modifies this`backgroundFifo, this`pixelFetcher, this`spriteFifo
      modifies this`scanlineBuffer, this`pixelsDrawnInScanline, this`pixelsToDiscard
      ensures DrawState() == Shift(old(DrawState()), currentScanline, regs, mem)
      ensures !drawing ==> pixelsDrawnInScanline < LCD_WIDTH
    {
      hide TickFetcher, EmitPixel;
      if |backgroundFifo| > 0 {
        var bgPixel := backgroundFifo[0];
        backgroundFifo := backgroundFifo[1..];
        if pixelsToDiscard > 0 {
          TickPixelFetcher(mem);
          pixelsToDiscard := pixelsToDiscard - 1;
          return false;
        }
        DrawPixel(bgPixel);
      }
      TickPixelFetcher(mem);
      drawing := true;
    }

    /** The pipeline's part of one dot; `drawing` is whether it got as far as the FIFOs. */
    method DrawPixels(mem: Memory) returns (drawing: bool)
      requires pixelsDrawnInScanline < LCD_WIDTH
      modifies this`windowActiveInScanline, this`windowLine, this`windowFetcherPenalty
      modifies this`backgroundFifo, this`pixelFetcher, this`pixelsToDiscard, this`pixelsDrawnInScanline
      modifies this`spriteBuffer, this`spriteFetcher, this`spriteFifo, this`scanlineBuffer
      ensures DrawState() == DrawDot(old(DrawState()), currentScanline, regs, mem)
      ensures DrawState().drawn == pixelsDrawnInScanline
      ensures !drawing ==> pixelsDrawnInScanline < LCD_WIDTH
    {
      hide StartWindow, ClaimObject, FetchBackground, FetchSprite, Shift;
      StartKeepsDrawn(DrawState(), currentScanline, regs);
      StartWindowIfReached();
      if windowFetcherPenalty > 0 {
        windowFetcherPenalty := windowFetcherPenalty - 1;
        return false;
      }
      ClaimKeepsDrawn(DrawState(), regs);
      ClaimNextObject();
      StallKeepsDrawn(DrawState(), currentScanline, regs, mem);
      if spriteFetcher.target != None && !(pixelFetcher.dot >= 6 || |backgroundFifo| > 0) {
        TickPixelFetcher(mem);
        return false;
      }
      if spriteFetcher.target != None {
        TickSpriteFetcher(mem);
        return false;
      }
      drawing := ShiftPixels(mem);
    }

    method EnterHBlank()
      modifies this`mode, this`statLine, this`log
      ensures State() == UpdateStat(old(State()).(mode := HBlank))
    {
      hide UpdateStat, DrawState;
      mode := HBlank;
      UpdateStatLine();
    }

    method HandleDraw(mem: Memory) returns (consumed: nat)
      requires pixelsDrawnInScanline < LCD_WIDTH
      modifies this
      ensures consumed == 1
      ensures State() == DrawingDot(old(State()), mem)
    {
      hide UpdateStat, DrawDot, DrawState;
      consumed := 1;
      scanlineCycle := scanlineCycle + consumed;
      var drawing := DrawPixels(mem);
      if !drawing { return; }
      if pixelsDrawnInScanline == LCD_WIDTH {
        EnterHBlank();
      }
    }

    method CloseWindow()
      modifies this`windowActiveInScanline, this`windowLine
      ensures State() == var s := old(State());
        s.(pipe := if s.pipe.windowActive
             then s.pipe.(windowActive := false, windowLine := Byte(s.pipe.windowLine + 1)) else s.pipe)
    {
      if windowActiveInScanline {
        windowActiveInScanline := false;
        windowLine := Byte(windowLine + 1);
      }
    }

    method EnterOamScan()
      modifies this`spriteBuffer, this`mode
      ensures State() == var s := old(State()); s.(pipe := s.pipe.(buffer := []), mode := OamScan)
    {
      spriteBuffer := [];
      mode := OamScan;
    }

    method EnterVBlank()
      modifies this`mode, this`log
      ensures State() == Send(Send(old(State()).(mode := VBlank), EndFrame), VBlankInterrupt)
    {
      hide DrawState;
      mode := VBlank;
      log := log + [EndFrame];
      log := log + [VBlankInterrupt];
    }

    method SendLine()
      modifies this`log, this`scanlineCycle, this`currentScanline
      ensures State() == var s := old(State());
        Send(s, Scanline(s.ly, s.pipe.line)).(cycle := 0, ly := (s.ly + 1) % 0x100)
    {
      log := log + [Scanline(currentScanline, scanlineBuffer)];
      scanlineCycle := 0;
      currentScanline := (currentScanline + 1) % 0x100;
    }

    /** Hand the finished line to the screen and decide what comes next. */
    method FinishLine()
      modifies this
      ensures State() == EndedLine(old(State()))
    {
      hide DrawState;
      SendLine();
      CloseWindow();
      if currentScanline <= 143 {
        EnterOamScan();
      } else {
        EnterVBlank();
      }
    }

    method HandleHBlank(numTicks: nat) returns (consumed: nat)
      requires enabled && mode == HBlank && scanlineCycle < DOTS_PER_LINE && numTicks > 0
      modifies this
      ensures consumed == Min(numTicks, TickBatch(old(State())))
      ensures State() == HBlankDots(old(State()), consumed)
    {
      hide UpdateStat, EndedLine, DrawState;
      var batch := NextBatch();
      consumed := Min(numTicks, batch);
      scanlineCycle := scanlineCycle + consumed;
      if scanlineCycle >= DOTS_PER_LINE {
        FinishLine();
        UpdateStatLine();
      }
    }

    method FinishBlankLine()
      modifies this`scanlineCycle, this`currentScanline, this`spriteBuffer, this`mode
      ensures State() == EndedBlankLine(old(State()))
    {
      hide DrawState;
      scanlineCycle := 0;
      currentScanline := (currentScanline + 1) % 0x100;
      if currentScanline > 153 {
        currentScanline := 0;
        EnterOamScan();
      }
    }

    method HandleVBlank(numTicks: nat) returns (consumed: nat)
      requires enabled && mode == VBlank && scanlineCycle < DOTS_PER_LINE && numTicks > 0
      modifies this
      ensures consumed == Min(numTicks, TickBatch(old(State())))
      ensures State() == VBlankDots(old(State()), consumed)
    {
      hide UpdateStat, EndedBlankLine, DrawState;
      var batch := NextBatch();
      consumed := Min(numTicks, batch);
      scanlineCycle := scanlineCycle + consumed;
      if scanlineCycle >= DOTS_PER_LINE {
        FinishBlankLine();
        UpdateStatLine();
      }
    }

    method StepOnce(numTicks: nat, mem: Memory) returns (consumed: nat)
      requires Inv(State()) && enabled && numTicks > 0
      modifies this
      ensures 1 <= consumed <= numTicks
      ensures State() == Dots(old(State()), mem, consumed)
      ensures enabled
    {
      ghost var start := State();
      BatchPositive(start);
      InvCanStep(start);
      StepInv(start, mem, Min(numTicks, TickBatch(start)));
      BatchIsDots(start, mem, Min(numTicks, TickBatch(start)));
      match mode {
        case HBlank => consumed := HandleHBlank(numTicks);
        case VBlank => consumed := HandleVBlank(numTicks);
        case OamScan => consumed := HandleScanOam(numTicks, mem);
        case Drawing => consumed := HandleDraw(mem);
      }
    }

    /** However a number of ticks is split into calls and batches, the unit runs that many dots. */
    method Tick(numTicks: nat, mem: Memory)
      requires Inv(State())
      modifies this
      ensures Inv(State()) && State() == Dots(old(State()), mem, numTicks)
    {
      hide Inv, Dot, Dots, CanStep;
      ghost var start := State();
      if !enabled {
        IdleDots(start, mem, numTicks);
        return;
      }
      var remaining := numTicks;
      NoDots(start, mem);
      while remaining > 0
        invariant 0 <= remaining <= numTicks
        invariant enabled && Inv(State())
        invariant State() == Dots(start, mem, numTicks - remaining)
      {
        ghost var done := numTicks - remaining;
        var consumed := StepOnce(remaining, mem);
        DotsSplit(start, mem, done, consumed);
        remaining := remaining - consumed;
      }
    }
  }

  lemma {:induction false} IdleDots(s: Ppu, mem: Memory, n: nat)
    requires Inv(s) && !s.enabled
    ensures Dots(s, mem, n) == s
    decreases n
  {
    hide Inv;
    if n > 0 {
      IdleDots(s, mem, n - 1);
    }
  }

  lemma StartKeepsDrawn(p: Pipe, ly: byte, regs: Regs)
    ensures StartWindow(p, ly, regs).drawn == p.drawn
  {
  }

  lemma ClaimKeepsDrawn(p: Pipe, regs: Regs)
    ensures ClaimObject(p, regs).drawn == p.drawn
  {
  }

  lemma StallKeepsDrawn(p: Pipe, ly: byte, regs: Regs, mem: Memory)
    ensures FetchBackground(p, ly, regs, mem).drawn == p.drawn && FetchSprite(p, ly, regs, mem).drawn == p.drawn
  {
    hide TickFetcher, TickSprite;
  }
}
