/** The scanline renderer refines the painter's algorithm, one line and one frame at a time. */
module PpuLine {
  import opened Common
  import opened Pixels
  import opened PpuPipe
  import opened PpuPipeTiming
  import opened Ppu
  import opened PpuTiming
  import opened PpuScan
  import opened LineSpec
  import opened PpuRender

  /** The lines handed to the screen, oldest first. */
  ghost function Sent(log: seq<Event>): seq<(nat, LineBuffer)> {
    if log == [] then []
    else
      var e := log[|log| - 1];
      Sent(log[..|log| - 1]) + if e.Scanline? then [(e.ly, e.line)] else []
  }

  lemma SentSend(s: Ppu, e: Event)
    ensures Sent(Send(s, e).log) == Sent(s.log) + if e.Scanline? then [(e.ly, e.line)] else []
  {
    assert Send(s, e).log[..|s.log|] == s.log;
  }

  lemma StatSendsNothing(s: Ppu)
    ensures Sent(UpdateStat(s).log) == Sent(s.log)
  {
    SentSend(s.(statLine := StatCondition(s)), StatInterrupt);
  }

  /** The window's line counter once a line is over. */
  ghost function NextWindowLine(p: Pipe): byte {
    if p.windowActive then Byte(p.windowLine + 1) else p.windowLine
  }

  /** `t` is the first dot after line `s.ly`, which was handed to the screen as `line`. */
  ghost predicate LineOver(s: Ppu, t: Ppu, line: LineBuffer) {
    && Sent(t.log) == Sent(s.log) + [(s.ly, line)]
    && t.ly == s.ly + 1 && t.cycle == 0 && t.regs == s.regs && t.enabled
    && t.mode == if t.ly < VISIBLE_LINES then OamScan else VBlank
  }

  lemma EndLineSends(s: Ppu)
    requires s.ly < VISIBLE_LINES && s.enabled
    ensures LineOver(s, EndLine(s), s.pipe.line) && EndLine(s).pipe.windowLine == NextWindowLine(s.pipe)
  {
    hide Sent, StatCondition;
    StatSendsNothing(EndedLine(s));
    SentSend(s, Scanline(s.ly, s.pipe.line));
    var v := Send(s, Scanline(s.ly, s.pipe.line));
    SentSend(v, EndFrame);
    SentSend(Send(v, EndFrame), VBlankInterrupt);
  }

  lemma HBlankSends(s: Ppu, mem: Memory, n: nat)
    requires Inv(s) && s.enabled && s.mode == HBlank && s.cycle + n == DOTS_PER_LINE
    ensures var t := Dots(s, mem, n); LineOver(s, t, s.pipe.line) && t.pipe.windowLine == NextWindowLine(s.pipe)
  {
    BlankBatchIsDots(s, mem, n);
    EndLineSends(s.(cycle := DOTS_PER_LINE));
    hide Sent, EndLine, Dots;
  }

  // ---------------------------------------------------------------- drawing

  /** The window is on only where the picture has one. */
  ghost predicate WindowSeen(l: Line, p: Pipe) {
    p.windowActive ==> WindowFrom(l) < LCD_WIDTH
  }

  lemma DotSeesWindow(l: Line, p: Pipe)
    requires WindowSeen(l, p) && p.drawn < LCD_WIDTH
    ensures WindowSeen(l, DrawDot(p, l.ly, l.regs, l.mem))
  {
    hide TickFetcher, TickSprite, SpriteDelay, FirstAt, Emitted;
  }

  lemma DotSendsNothing(s: Ppu, mem: Memory)
    requires Inv(s) && s.enabled && s.mode == Drawing
    ensures CanStep(s) && Sent(Dot(s, mem).log) == Sent(s.log)
  {
    InvCanStep(s);
    hide Sent, UpdateStat, DrawDot, Inv;
    StatSendsNothing(s.(cycle := s.cycle + 1, pipe := DrawDot(s.pipe, s.ly, s.regs, mem), mode := HBlank));
  }

  /** What the window's line counter is when the line ends. */
  ghost function WindowLineAfter(l: Line): byte {
    if WindowFrom(l) < LCD_WIDTH then Byte(l.windowLine + 1) else l.windowLine
  }

  /** From any dot of drawing on: the finished line is the picture, and the window's counter has
      moved exactly when the picture shows the window. */
  lemma {:induction false} DrawingSends(l: Line, s: Ppu, fetched: seq<Object>, n: nat)
    requires Inv(s) && s.enabled && s.mode == Drawing && s.cycle + n == DOTS_PER_LINE
    requires s.regs == l.regs && s.ly == l.ly && Renders(l, s.pipe, fetched) && WindowSeen(l, s.pipe)
    ensures var t := Dots(s, l.mem, n);
      && LineOver(s, t, PaintedLine(l))
      && (l.ly != l.regs.wy || WindowFrom(l) < LCD_WIDTH ==> t.pipe.windowLine == WindowLineAfter(l))
    decreases n
  {
    RoomToDraw(s);
    hide *;
    DrawingDotMoves(s, l.mem);
    DotSendsNothing(s, l.mem);
    DotSeesWindow(l, s.pipe);
    var after := DotRenders(l, s.pipe, fetched);
    var t := Dot(s, l.mem);
    DotsUnfold(s, l.mem, n);
    if t.mode == Drawing {
      DrawingSends(l, t, after, n - 1);
    } else {
      HBlankSends(t, l.mem, n - 1);
      CompleteLine(l, t.pipe, after);
    }
    SameLineOver(s, t, Dots(t, l.mem, n - 1), PaintedLine(l));
  }

  lemma SameLineOver(s: Ppu, t: Ppu, u: Ppu, line: LineBuffer)
    requires LineOver(t, u, line) && t.ly == s.ly && t.regs == s.regs && Sent(t.log) == Sent(s.log)
    ensures LineOver(s, u, line)
  {
  }

  lemma RoomToDraw(s: Ppu)
    requires Inv(s) && s.mode == Drawing
    ensures s.pipe.drawn < LCD_WIDTH && s.cycle + 1 < DOTS_PER_LINE
  {
    MeasureNonNegative(s.pipe);
  }

  lemma CompleteLine(l: Line, p: Pipe, fetched: seq<Object>)
    requires Renders(l, p, fetched) && p.drawn == LCD_WIDTH && WindowSeen(l, p)
    ensures p.line == PaintedLine(l)
    ensures l.ly != l.regs.wy || WindowFrom(l) < LCD_WIDTH ==> NextWindowLine(p) == WindowLineAfter(l)
  {
    hide Painted, PipeInv, SpritesHold, FetcherHolds, FifoHolds;
  }

  // ---------------------------------------------------------------- one line

  /** The objects the scan selects for a line. */
  ghost function Selected(regs: Regs, mem: Memory, ly: nat): ObjectBuffer {
    FirstTen(Visible(mem, ly, ObjectHeight(regs.tallObjects), 0, OAM_OBJECTS))
  }

  /** The line the unit is about to draw, if registers and memory are held still. */
  ghost function LineAt(s: Ppu, mem: Memory): Line
    requires Inv(s) && s.mode == OamScan
  {
    Line(s.ly, s.regs, mem, if s.ly == s.regs.wy then 0 else s.pipe.windowLine, Collected(s, mem, OAM_OBJECTS))
  }

  lemma SelectedDistinct(regs: Regs, mem: Memory, ly: nat)
    requires ly < VISIBLE_LINES
    ensures DistinctObjects(Selected(regs, mem, ly))
  {
    VisibleIsFilter(mem, ly, ObjectHeight(regs.tallObjects), 0);
  }

  /** From any dot of the scan of a visible line, with registers and memory held still, the line that
      reaches the screen at dot 456 is, column by column, the tile map (or window) mixed with the
      front-most of the sprites the scan ends with, unless one of those was left over from before and
      is found again. */
  lemma RestOfLineIsPainted(s: Ppu, mem: Memory)
    requires Inv(s) && s.enabled && s.mode == OamScan && DistinctObjects(LineAt(s, mem).objects)
    ensures s.cycle < DOTS_PER_LINE
    ensures var t, l := Dots(s, mem, DOTS_PER_LINE - s.cycle), LineAt(s, mem);
      && LineOver(s, t, PaintedLine(l))
      && (l.ly != l.regs.wy || WindowFrom(l) < LCD_WIDTH ==> t.pipe.windowLine == WindowLineAfter(l))
  {
    hide *;
    var rest: nat := 376;
    DrawingBegins(s, mem);
    RestOfLine(s.cycle);
    var n: nat := SCAN_DOTS - s.cycle;
    var l, t := LineAt(s, mem), Dots(s, mem, n);
    LineAtNow(s, mem);
    DrawingSends(l, t, [], rest);
    DotsSplit(s, mem, n, rest);
    SameLineOver(s, t, Dots(s, mem, DOTS_PER_LINE - s.cycle), PaintedLine(l));
  }

  lemma RestOfLine(cycle: nat)
    requires cycle < SCAN_DOTS
    ensures SCAN_DOTS - cycle + 376 == DOTS_PER_LINE - cycle && cycle < DOTS_PER_LINE
    ensures SCAN_DOTS + 376 == DOTS_PER_LINE
  {
  }

  lemma LineAtNow(s: Ppu, mem: Memory)
    requires Inv(s) && s.mode == OamScan
    ensures LineAt(s, mem).ly == s.ly && LineAt(s, mem).regs == s.regs && LineAt(s, mem).mem == mem
    ensures LineAt(s, mem).objects == Collected(s, mem, OAM_OBJECTS)
  {
  }

  /** From the first dot of any visible line they are the first ten on the line, and nothing is left
      over. */
  lemma LineIsPainted(s: Ppu, mem: Memory)
    requires Inv(s) && s.enabled && s.mode == OamScan && s.cycle == 0
    ensures var t, l := Dots(s, mem, DOTS_PER_LINE), LineAt(s, mem);
      && l.objects == Selected(s.regs, mem, s.ly) && DistinctObjects(l.objects)
      && LineOver(s, t, PaintedLine(l))
      && (l.ly != l.regs.wy || WindowFrom(l) < LCD_WIDTH ==> t.pipe.windowLine == WindowLineAfter(l))
  {
    hide Dots, Inv, LineOver, LineAt, Selected, DistinctObjects, PaintedLine, WindowFrom, WindowLineAfter;
    CleanLine(s, mem);
    RestOfLineIsPainted(s, mem);
  }

  lemma CleanLine(s: Ppu, mem: Memory)
    requires Inv(s) && s.mode == OamScan && s.cycle == 0
    ensures LineAt(s, mem).objects == Selected(s.regs, mem, s.ly) && DistinctObjects(LineAt(s, mem).objects)
    ensures DOTS_PER_LINE - s.cycle == DOTS_PER_LINE
  {
    OnScreen(s);
    NothingBuffered(s, mem);
    SelectedDistinct(s.regs, mem, s.ly);
    hide Collected, Visible, FirstTen, DistinctObjects;
  }

  /** The scan is over and the picture starts out right. */
  lemma DrawingBegins(s: Ppu, mem: Memory)
    requires Inv(s) && s.enabled && s.mode == OamScan && DistinctObjects(LineAt(s, mem).objects)
    ensures s.cycle < SCAN_DOTS
    ensures var t, l := Dots(s, mem, SCAN_DOTS - s.cycle), LineAt(s, mem);
      && t.mode == Drawing && t.cycle == SCAN_DOTS && t.ly == s.ly && t.regs == s.regs && t.enabled
      && Sent(t.log) == Sent(s.log)
      && Renders(l, t.pipe, []) && WindowSeen(l, t.pipe)
  {
    ScanPhase(s, mem);
    hide Dots, Renders, Sent, Visible, DistinctObjects, Inv, Collected;
    StartRenders(LineAt(s, mem), s.pipe.(buffer := Dots(s, mem, SCAN_DOTS - s.cycle).pipe.buffer));
  }

  lemma OnScreen(s: Ppu)
    requires Inv(s) && s.mode == OamScan
    ensures s.ly < VISIBLE_LINES
  {
  }

  lemma ScanPhase(s: Ppu, mem: Memory)
    requires Inv(s) && s.enabled && s.mode == OamScan
    ensures s.cycle < SCAN_DOTS
    ensures var t, l := Dots(s, mem, SCAN_DOTS - s.cycle), LineAt(s, mem);
      && t.mode == Drawing && t.cycle == SCAN_DOTS && t.ly == l.ly == s.ly && t.regs == l.regs == s.regs && t.enabled
      && t.pipe == StartDrawing(s.pipe.(buffer := t.pipe.buffer), l.regs.scx)
      && t.pipe.buffer == l.objects
      && !s.pipe.windowActive && s.pipe.penalty == 0
      && Sent(t.log) == Sent(s.log)
  {
    QuietScan(s, mem);
    ScanSendsNothing(s, mem);
    hide Dots, StartDrawing, Collected, Sent;
  }

  lemma ScanSendsNothing(s: Ppu, mem: Memory)
    requires Inv(s) && s.enabled && s.mode == OamScan && s.cycle < SCAN_DOTS
    ensures Sent(Dots(s, mem, SCAN_DOTS - s.cycle).log) == Sent(s.log)
  {
    var n: nat := SCAN_DOTS - s.cycle;
    ScanBatchIsDots(s, mem, n);
    hide Dots, Inv, Sent, StartDrawing, StatCondition, ScanDots;
    ScanDotsKeep(s, mem, n);
    var t := ScanDots(s, mem, n);
    StatSendsNothing(t.(initialAfterOn := false, mode := Drawing, pipe := StartDrawing(t.pipe, t.regs.scx)));
  }
}
