/** Whole frames: with the LCD left on, the unit repeats with a period of exactly 70224
    ticks, each period hands lines 0 to 143 to the screen in order and requests one
    v-blank interrupt, whatever else the CPU writes. */
module PpuFrame {
  import opened Common
  import opened PpuPipe
  import opened PpuPipeTiming
  import opened Ppu
  import opened PpuTiming

  const TICKS_PER_FRAME := 70224

  /** The line numbers handed to the screen, oldest first. */
  ghost function LinesOf(log: seq<Event>): seq<nat> {
    if log == [] then []
    else
      var e := log[|log| - 1];
      LinesOf(log[..|log| - 1]) + if e.Scanline? then [e.ly] else []
  }

  ghost function VBlanksOf(log: seq<Event>): nat {
    if log == [] then 0
    else VBlanksOf(log[..|log| - 1]) + if log[|log| - 1] == VBlankInterrupt then 1 else 0
  }

  ghost function Position(s: Ppu): nat {
    s.ly * DOTS_PER_LINE + s.cycle
  }

  ghost function UpTo(n: nat): seq<nat> {
    seq(n, i => i)
  }

  /** Lines 0 to 143 in order, `k` times over. */
  ghost function Repeated(k: nat): seq<nat> {
    if k == 0 then [] else Repeated(k - 1) + UpTo(VISIBLE_LINES)
  }

  // ---------------------------------------------------------------- the log

  lemma LogSend(s: Ppu, e: Event)
    ensures LinesOf(Send(s, e).log) == LinesOf(s.log) + if e.Scanline? then [e.ly] else []
    ensures VBlanksOf(Send(s, e).log) == VBlanksOf(s.log) + if e == VBlankInterrupt then 1 else 0
  {
    assert Send(s, e).log[..|s.log|] == s.log;
  }

  lemma StatKeepsLog(s: Ppu)
    ensures LinesOf(UpdateStat(s).log) == LinesOf(s.log) && VBlanksOf(UpdateStat(s).log) == VBlanksOf(s.log)
  {
    LogSend(s.(statLine := StatCondition(s)), StatInterrupt);
  }

  lemma ApplyKeepsLog(s: Ppu, w: PpuWrite)
    ensures LinesOf(Apply(s, w).log) == LinesOf(s.log) && VBlanksOf(Apply(s, w).log) == VBlanksOf(s.log)
  {
    match w {
      case WriteRegs(regs) =>
      case WriteLyc(lyc) => StatKeepsLog(s.(lyc := lyc));
      case WriteStat(sources) => StatKeepsLog(s.(sources := sources));
      case WriteEnable(on) => StatKeepsLog(s.(enabled := true));
    }
  }

  lemma ApplyAllKeepsLog(s: Ppu, ws: seq<PpuWrite>)
    requires Inv(s)
    ensures LinesOf(ApplyAll(s, ws).log) == LinesOf(s.log) && VBlanksOf(ApplyAll(s, ws).log) == VBlanksOf(s.log)
    decreases |ws|
  {
    if ws != [] {
      hide Apply, Inv;
      ApplyInv(s, ws[0]);
      ApplyKeepsLog(s, ws[0]);
      ApplyAllKeepsLog(Apply(s, ws[0]), ws[1..]);
    }
  }

  // ---------------------------------------------------------------- one dot

  /** One tick moves to the next dot, line and frame in turn, and sends a line to the
      screen or requests a v-blank exactly at the end of the lines where that is due. */
  ghost predicate Advances(s: Ppu, t: Ppu) {
    && (if s.cycle + 1 < DOTS_PER_LINE then t.cycle == s.cycle + 1 && t.ly == s.ly
        else t.cycle == 0 && t.ly == if s.ly + 1 < TOTAL_LINES then s.ly + 1 else 0)
    && LinesOf(t.log) == LinesOf(s.log) + (if t.cycle == 0 && s.ly < VISIBLE_LINES then [s.ly] else [])
    && VBlanksOf(t.log) == VBlanksOf(s.log) + (if t.cycle == 0 && t.ly == VISIBLE_LINES then 1 else 0)
  }

  lemma EndedLineLog(s: Ppu)
    requires s.ly < VISIBLE_LINES
    ensures LinesOf(EndedLine(s).log) == LinesOf(s.log) + [s.ly]
    ensures VBlanksOf(EndedLine(s).log) == VBlanksOf(s.log) + if s.ly == VISIBLE_LINES - 1 then 1 else 0
  {
    hide LinesOf, VBlanksOf;
    LogSend(s, Scanline(s.ly, s.pipe.line));
    var t := EndedLine(s);
    if t.ly > 143 {
      var v := Send(s, Scanline(s.ly, s.pipe.line));
      LogSend(v, EndFrame);
      LogSend(Send(v, EndFrame), VBlankInterrupt);
    }
  }

  lemma EndLineAdvances(s: Ppu)
    requires Inv(s) && s.mode == HBlank && s.cycle == DOTS_PER_LINE - 1
    ensures Advances(s, EndLine(s.(cycle := s.cycle + 1)))
  {
    hide LinesOf, VBlanksOf, UpdateStat;
    var c := s.(cycle := s.cycle + 1);
    EndedLineLog(c);
    StatKeepsLog(EndedLine(c));
    StatOnly(EndedLine(c));
  }

  lemma EndBlankLineAdvances(s: Ppu)
    requires Inv(s) && s.mode == VBlank && s.cycle == DOTS_PER_LINE - 1
    ensures Advances(s, EndBlankLine(s.(cycle := s.cycle + 1)))
  {
    hide LinesOf, VBlanksOf, UpdateStat;
    var c := s.(cycle := s.cycle + 1);
    StatKeepsLog(EndedBlankLine(c));
    StatOnly(EndedBlankLine(c));
  }

  lemma ScanAdvances(s: Ppu, mem: Memory)
    requires Inv(s) && s.enabled && s.mode == OamScan
    ensures Advances(s, Dot(s, mem))
  {
    hide LinesOf, VBlanksOf, StatCondition, StartDrawing;
    var t := ScanDots(s, mem, 1);
    ScanDotsKeep(s, mem, 1);
    StatKeepsLog(t.(initialAfterOn := false, mode := Drawing, pipe := StartDrawing(t.pipe, t.regs.scx)));
  }

  lemma DrawingRoom(s: Ppu)
    requires Inv(s) && s.mode == Drawing
    ensures SCAN_DOTS <= s.cycle < DOTS_PER_LINE - 1 && s.ly < VISIBLE_LINES && s.pipe.drawn < LCD_WIDTH
  {
    MeasureNonNegative(s.pipe);
  }

  lemma DrawingAdvances(s: Ppu, mem: Memory)
    requires Inv(s) && s.enabled && s.mode == Drawing
    ensures Advances(s, Dot(s, mem))
  {
    DrawingRoom(s);
    DrawingDotLog(s, mem);
    DrawingDotMoves(s, mem);
    hide Inv, LinesOf, VBlanksOf, DrawDot, Dot;
  }

  lemma DrawingDotLog(s: Ppu, mem: Memory)
    requires CanStep(s) && s.enabled && s.mode == Drawing
    ensures LinesOf(Dot(s, mem).log) == LinesOf(s.log) && VBlanksOf(Dot(s, mem).log) == VBlanksOf(s.log)
  {
    hide LinesOf, VBlanksOf, UpdateStat, DrawDot;
    StatKeepsLog(s.(cycle := s.cycle + 1, pipe := DrawDot(s.pipe, s.ly, s.regs, mem), mode := HBlank));
  }

  lemma DotAdvances(s: Ppu, mem: Memory)
    requires Inv(s) && s.enabled
    ensures Advances(s, Dot(s, mem))
  {
    match s.mode {
      case HBlank => if s.cycle == DOTS_PER_LINE - 1 { EndLineAdvances(s); }
      case VBlank => if s.cycle == DOTS_PER_LINE - 1 { EndBlankLineAdvances(s); }
      case OamScan => ScanAdvances(s, mem);
      case Drawing => DrawingAdvances(s, mem);
    }
  }

  // ---------------------------------------------------------------- runs

  lemma RunDotAdvances(s: Ppu, i: Input)
    requires Inv(s) && s.enabled && LcdLeftOn(i)
    ensures Advances(s, RunDot(s, i))
  {
    ApplyAllKeepsLog(s, i.writes);
    DotAdvances(ApplyAll(s, i.writes), i.mem);
    hide Inv, ApplyAll, LinesOf, VBlanksOf, Dot;
  }

  /** The visible lines finished, and v-blanks requested, since the start of the frame. */
  ghost function LinesDone(s: Ppu): nat {
    Min(VISIBLE_LINES, s.ly)
  }

  ghost function VBlanksDone(s: Ppu): nat {
    if s.ly >= VISIBLE_LINES then 1 else 0
  }

  /** What `t` has sent beyond `s`, `k` frames having ended in between: all lines of those frames and of
      the one `t` is in, without those the first of them had behind it at `s`. */
  ghost predicate Sent(s: Ppu, t: Ppu, k: nat) {
    var lines := Repeated(k) + UpTo(LinesDone(t));
    && LinesDone(s) <= |lines|
    && LinesOf(t.log) == LinesOf(s.log) + lines[LinesDone(s)..]
    && VBlanksOf(t.log) + VBlanksDone(s) == VBlanksOf(s.log) + k + VBlanksDone(t)
  }

  lemma SentNothing(s: Ppu)
    ensures Sent(s, s, 0)
  {
    hide LinesOf, VBlanksOf;
  }

  lemma SentMore(s: Ppu, r: Ppu, t: Ppu, k: nat)
    requires Sent(s, r, k) && Advances(r, t) && r.ly < TOTAL_LINES && r.cycle < DOTS_PER_LINE
    ensures Sent(s, t, if t.cycle == 0 && t.ly == 0 then k + 1 else k)
  {
    hide LinesOf, VBlanksOf;
    var lines := Repeated(k) + UpTo(LinesDone(r));
    if t.cycle == 0 && r.ly < VISIBLE_LINES {
      assert UpTo(LinesDone(t)) == UpTo(LinesDone(r)) + [r.ly];
      assert (lines + [r.ly])[LinesDone(s)..] == lines[LinesDone(s)..] + [r.ly];
      assert Repeated(k) + UpTo(LinesDone(t)) == lines + [r.ly];
    } else if t.cycle == 0 && t.ly == 0 {
      assert Repeated(k + 1) + UpTo(0) == lines;
    }
  }

  /** Any run with the LCD on, from any moment of any line: where the unit is, and what it has sent, in
      terms of the number `k` of frames ended and the position inside the current one. */
  lemma {:induction false} RunPosition(s: Ppu, inputs: seq<Input>) returns (k: nat)
    requires Inv(s) && s.enabled
    requires forall i :: i in inputs ==> LcdLeftOn(i)
    ensures var t := Run(s, inputs);
      && t.enabled && t.cycle < DOTS_PER_LINE && t.ly < TOTAL_LINES
      && Position(s) + |inputs| == k * TICKS_PER_FRAME + Position(t)
      && Sent(s, t, k)
    decreases |inputs|
  {
    hide Inv, RunDot, LcdLeftOn, Sent;
    if inputs == [] {
      k := 0;
      LineBound(s);
      SentNothing(s);
    } else {
      var before, i := inputs[..|inputs| - 1], inputs[|inputs| - 1];
      k := RunPosition(s, before);
      var r := Run(s, before);
      RunDotAdvances(r, i);
      SentMore(s, r, RunDot(r, i), k);
      assert Run(s, inputs) == RunDot(r, i);
      hide Run, LinesOf, VBlanksOf;
      if r.cycle == DOTS_PER_LINE - 1 && r.ly == TOTAL_LINES - 1 {
        k := k + 1;
      }
    }
  }

  lemma LineBound(s: Ppu)
    requires Inv(s)
    ensures s.ly < TOTAL_LINES && s.cycle < DOTS_PER_LINE
  {
    if s.mode == Drawing {
      DrawingRoom(s);
    }
  }

  /** From dot `c` of line 0, k frames of ticks less `c` bring the unit back to line 0, dot 0, in OAM
      scan; it has drawn lines 0..143 in order k times and requested v-blank k times. At power-on `c` is
      0; when the LCD is switched on again it is 2. */
  lemma FrameLength(s: Ppu, inputs: seq<Input>, k: nat)
    requires Inv(s) && s.enabled && s.ly == 0
    requires s.cycle + |inputs| == k * TICKS_PER_FRAME
    requires forall i :: i in inputs ==> LcdLeftOn(i)
    ensures var t := Run(s, inputs);
      && t.ly == 0 && t.cycle == 0 && t.mode == OamScan
      && LinesOf(t.log) == LinesOf(s.log) + Repeated(k)
      && VBlanksOf(t.log) == VBlanksOf(s.log) + k
  {
    var frames := RunPosition(s, inputs);
    var t := Run(s, inputs);
    hide Inv, Run, LinesOf, VBlanksOf, LcdLeftOn;
    assert Position(t) == t.ly * 456 + t.cycle < TICKS_PER_FRAME;
    assert frames == k;
    StartOfFrame(t);
    assert Repeated(k) + UpTo(0) == Repeated(k);
  }

  /** Switching the LCD on starts a frame two dots short of a whole one, whatever went before. */
  lemma FirstFrame(off: Ppu, inputs: seq<Input>)
    requires Inv(off) && !off.enabled && |inputs| == TICKS_PER_FRAME - 2
    requires forall i :: i in inputs ==> LcdLeftOn(i)
    ensures var s := Apply(off, WriteEnable(true));
      && Inv(s)
      && var t := Run(s, inputs);
         && t.ly == 0 && t.cycle == 0 && t.mode == OamScan
         && LinesOf(t.log) == LinesOf(off.log) + UpTo(VISIBLE_LINES)
         && VBlanksOf(t.log) == VBlanksOf(off.log) + 1
  {
    hide *;
    SwitchedOn(off);
    OneFrame();
    FrameLength(Apply(off, WriteEnable(true)), inputs, 1);
  }

  lemma SwitchedOn(off: Ppu)
    requires Inv(off) && !off.enabled
    ensures var s := Apply(off, WriteEnable(true));
      && Inv(s) && s.enabled && s.ly == 0 && s.cycle == 2
      && LinesOf(s.log) == LinesOf(off.log) && VBlanksOf(s.log) == VBlanksOf(off.log)
  {
    hide UpdateStat, LinesOf, VBlanksOf;
    ApplyInv(off, WriteEnable(true));
    ApplyKeepsLog(off, WriteEnable(true));
    StatOnly(off.(enabled := true));
  }

  lemma OneFrame()
    ensures Repeated(1) == UpTo(VISIBLE_LINES) && 1 * TICKS_PER_FRAME == TICKS_PER_FRAME
    ensures 2 + (TICKS_PER_FRAME - 2) == 1 * TICKS_PER_FRAME
  {
    assert Repeated(1) == Repeated(0) + UpTo(VISIBLE_LINES);
  }

  lemma StartOfFrame(s: Ppu)
    requires Inv(s) && s.cycle == 0
    ensures s.ly == 0 ==> s.mode == OamScan
  {
  }
}
