/** A whole frame: with registers and memory held still the 144 lines sent to the screen are the
    painter's picture, the window included. */
module PpuPicture {
  import opened Common
  import opened PpuPipe
  import opened Ppu
  import opened PpuTiming
  import opened PpuScan
  import opened LineSpec
  import opened PpuLine

  /** Line `ly` of the picture: inside the window, rows are counted from the window's top. */
  ghost function PictureLine(regs: Regs, mem: Memory, ly: nat): Line
    requires ly < VISIBLE_LINES
  {
    Line(ly, regs, mem, if ly >= regs.wy then ly - regs.wy else 0, Selected(regs, mem, ly))
  }

  /** The first `n` lines of the picture, top to bottom. */
  ghost function Picture(regs: Regs, mem: Memory, n: nat): seq<(nat, LineBuffer)>
    requires n <= VISIBLE_LINES
  {
    if n == 0 then [] else Picture(regs, mem, n - 1) + [(n - 1, PaintedLine(PictureLine(regs, mem, n - 1)))]
  }

  /** Without a window on the line its row counter is irrelevant. */
  lemma RowIrrelevant(l: Line, row: byte)
    requires WindowFrom(l) == LCD_WIDTH
    ensures PaintedLine(l) == PaintedLine(l.(windowLine := row))
  {
    hide MapPixel;
    var m := l.(windowLine := row);
    forall x | 0 <= x < LCD_WIDTH ensures Painted(l, x) == Painted(m, x) {
      SameSprites(l, m, x, l.objects);
      SameMap(l, m, l.regs.bgMapHigh, (l.regs.scx + x) % 0x100, Byte(l.ly + l.regs.scy));
    }
  }

  lemma SameMap(l: Line, m: Line, mapHigh: bool, mapX: nat, mapY: byte)
    requires mapX < 0x100 && m == l.(windowLine := m.windowLine)
    ensures MapPixel(l, mapHigh, mapX, mapY) == MapPixel(m, mapHigh, mapX, mapY)
  {
  }

  lemma {:induction false} SameSprites(l: Line, m: Line, x: nat, objects: seq<Pixels.Object>)
    requires m == l.(windowLine := m.windowLine)
    ensures Contributions(l, objects, x) == Contributions(m, objects, x)
    decreases |objects|
  {
    if objects != [] {
      SameSprites(l, m, x, objects[..|objects| - 1]);
    }
  }

  /** At the start of a line inside the window the counter is the row within it. */
  ghost predicate RowRight(s: Ppu, mem: Memory)
    requires s.ly < VISIBLE_LINES
  {
    var l := PictureLine(s.regs, mem, s.ly);
    s.ly > s.regs.wy && WindowFrom(l) < LCD_WIDTH ==> s.pipe.windowLine == s.ly - s.regs.wy
  }

  /** Then the line about to be drawn is the picture's, apart from sprites left over. */
  lemma SameLine(s: Ppu, mem: Memory)
    requires Inv(s) && s.mode == OamScan && s.ly < VISIBLE_LINES && RowRight(s, mem)
    ensures var l, p := LineAt(s, mem), PictureLine(s.regs, mem, s.ly);
      PaintedLine(l) == PaintedLine(p.(objects := l.objects)) && WindowFrom(l) == WindowFrom(p)
  {
    var l, p := LineAt(s, mem), PictureLine(s.regs, mem, s.ly);
    hide Selected, PaintedLine, Inv, Collected;
    if WindowFrom(l) == LCD_WIDTH {
      RowIrrelevant(l, p.windowLine);
    }
  }

  /** One line of the frame, and what the next one needs. */
  lemma NextLine(s: Ppu, mem: Memory)
    requires Inv(s) && s.enabled && s.mode == OamScan && s.ly < VISIBLE_LINES && RowRight(s, mem)
    requires DistinctObjects(LineAt(s, mem).objects)
    ensures s.cycle < DOTS_PER_LINE
    ensures var t := Dots(s, mem, DOTS_PER_LINE - s.cycle);
      && LineOver(s, t, PaintedLine(PictureLine(s.regs, mem, s.ly).(objects := LineAt(s, mem).objects)))
      && (t.ly < VISIBLE_LINES ==> RowRight(t, mem))
  {
    hide Selected, PaintedLine, Inv, Dots, Sent, DistinctObjects, Collected;
    RestOfLineIsPainted(s, mem);
    SameLine(s, mem);
  }

  lemma WholeLine(s: Ppu, mem: Memory)
    requires Inv(s) && s.enabled && s.mode == OamScan && s.cycle == 0 && s.ly < VISIBLE_LINES && RowRight(s, mem)
    ensures var t := Dots(s, mem, DOTS_PER_LINE);
      && LineOver(s, t, PaintedLine(PictureLine(s.regs, mem, s.ly)))
      && (t.ly < VISIBLE_LINES ==> RowRight(t, mem))
  {
    hide Selected, PaintedLine, Inv, Dots, Sent, DistinctObjects, RowRight, LineOver, LineAt;
    CleanLine(s, mem);
    NextLine(s, mem);
  }

  /** From dot 0 of line 0, with registers and memory held still: after any number of whole lines the
      screen has received exactly that much of the picture, top to bottom. */
  lemma {:induction false} FrameIsPainted(s: Ppu, mem: Memory, n: nat)
    requires Inv(s) && s.enabled && s.mode == OamScan && s.cycle == 0 && s.ly == 0 && n <= VISIBLE_LINES
    ensures var t := Dots(s, mem, n * DOTS_PER_LINE);
      && Sent(t.log) == Sent(s.log) + Picture(s.regs, mem, n)
      && t.ly == n && t.cycle == 0 && t.regs == s.regs && t.enabled
      && (n < VISIBLE_LINES ==> t.mode == OamScan && RowRight(t, mem))
  {
    hide Dots, Inv, Sent, RowRight, PictureLine, PaintedLine;
    if n == 0 {
      NoDots(s, mem);
      StartsRight(s, mem);
    } else {
      FrameIsPainted(s, mem, n - 1);
      var t := Dots(s, mem, (n - 1) * DOTS_PER_LINE);
      WholeLine(t, mem);
      DotsSplit(s, mem, (n - 1) * DOTS_PER_LINE, DOTS_PER_LINE);
      assert (n - 1) * DOTS_PER_LINE + DOTS_PER_LINE == n * DOTS_PER_LINE;
    }
  }

  /** The first frame after the LCD is switched on, or any other that is joined during the scan of line
      0: the lines sent are the picture's, but for the sprites of line 0, which are those the scan ends
      with, left over or not. */
  lemma {:induction false} FirstFrameIsPainted(s: Ppu, mem: Memory, n: nat)
    requires Inv(s) && s.enabled && s.mode == OamScan && s.ly == 0 && 1 <= n <= VISIBLE_LINES
    requires DistinctObjects(LineAt(s, mem).objects)
    ensures s.cycle < DOTS_PER_LINE <= n * DOTS_PER_LINE
    ensures var t := Dots(s, mem, n * DOTS_PER_LINE - s.cycle);
      var first := PictureLine(s.regs, mem, 0).(objects := LineAt(s, mem).objects);
      && Sent(t.log) == Sent(s.log) + [(0, PaintedLine(first))] + Picture(s.regs, mem, n)[1..]
      && t.ly == n && t.cycle == 0 && t.regs == s.regs && t.enabled
      && (n < VISIBLE_LINES ==> t.mode == OamScan && RowRight(t, mem))
  {
    hide Dots, Inv, Sent, RowRight, PictureLine, PaintedLine, DistinctObjects, LineAt;
    StartsRight(s, mem);
    NextLine(s, mem);
    PictureLength(s.regs, mem, n);
    if n == 1 {
      assert Picture(s.regs, mem, 1)[1..] == [];
    } else {
      FirstFrameIsPainted(s, mem, n - 1);
      PictureLength(s.regs, mem, n - 1);
      var gone: nat := (n - 1) * DOTS_PER_LINE - s.cycle;
      var t := Dots(s, mem, gone);
      WholeLine(t, mem);
      DotsSplit(s, mem, gone, DOTS_PER_LINE);
      assert gone + DOTS_PER_LINE == n * DOTS_PER_LINE - s.cycle;
    }
  }

  lemma PictureLength(regs: Regs, mem: Memory, n: nat)
    requires n <= VISIBLE_LINES
    ensures |Picture(regs, mem, n)| == n
  {
    hide PictureLine, PaintedLine;
  }

  /** In particular the frame that follows switching the LCD off and on. */
  lemma SwitchedOnIsPainted(s: Ppu, mem: Memory)
    requires Inv(s) && s.enabled
    requires DistinctObjects(FirstObjects(s, mem))
    ensures var on := Apply(Apply(s, WriteEnable(false)), WriteEnable(true));
      && Inv(on)
      && var t := Dots(on, mem, VISIBLE_LINES * DOTS_PER_LINE - 2);
         var first := PictureLine(s.regs, mem, 0).(objects := FirstObjects(s, mem));
         && Sent(t.log) == Sent(s.log) + [(0, PaintedLine(first))] + Picture(s.regs, mem, VISIBLE_LINES)[1..]
         && t.ly == VISIBLE_LINES && t.cycle == 0
  {
    hide Dots, Inv, Sent, PaintedLine, PictureLine, DistinctObjects, LineAt, FirstObjects, Apply, Picture, RowRight;
    SwitchedOn(s, mem);
    FirstFrameIsPainted(Apply(Apply(s, WriteEnable(false)), WriteEnable(true)), mem, VISIBLE_LINES);
  }

  lemma SwitchedOn(s: Ppu, mem: Memory)
    requires Inv(s) && s.enabled
    ensures var on := Apply(Apply(s, WriteEnable(false)), WriteEnable(true));
      && Inv(on) && on.enabled && on.mode == OamScan && on.ly == 0 && on.cycle == 2 && on.regs == s.regs
      && LineAt(on, mem).objects == FirstObjects(s, mem) && Sent(on.log) == Sent(s.log)
  {
    SwitchedOffAndOn(s);
    var off := Apply(s, WriteEnable(false));
    StatSendsNothing(off.(enabled := true));
    AfterDotTwo(Apply(off, WriteEnable(true)), mem);
    hide UpdateStat, Inv, Sent, Visible, Collected;
  }

  lemma StartsRight(s: Ppu, mem: Memory)
    requires s.ly == 0
    ensures RowRight(s, mem)
  {
  }
}
