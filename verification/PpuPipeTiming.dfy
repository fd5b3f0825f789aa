/** Why drawing a line always ends, and when: a measure over the pipeline that every dot
    lowers, whatever the registers say at that dot. */
module PpuPipeTiming {
  import opened Common
  import opened PpuPipe

  ghost predicate FetcherOk(f: Fetcher) {
    && f.stepCycle < 2
    && match f.step
       case TileAddress => f.dot == f.stepCycle
       case TileDataLow => f.dot == 2 + f.stepCycle
       case TileDataHigh => f.dot == 4 + f.stepCycle
       case Sleep => f.dot == 6 + f.stepCycle
       case Push => false
  }

  /** Dots the sprite fetcher still needs once it owns the VRAM bus. */
  ghost function SpriteLeft(s: SpriteFetcher): int {
    if s.target == None then 0
    else match s.step
      case SpriteAddress => 6 + s.extraDelay - s.stepCycle
      case SpriteDataLow => 4 + s.extraDelay - s.stepCycle
      case SpriteDataHigh => if s.stepCycle == 0 then 2 + s.extraDelay else 1 + s.extraDelay
  }

  ghost predicate SpriteOk(s: SpriteFetcher) {
    s.target != None ==>
      && s.extraDelay <= 5
      && (s.step != SpriteDataHigh ==> s.stepCycle < 2)
      && s.stepCycle + s.extraDelay <= 7
      && (s.step == SpriteDataHigh && s.stepCycle >= 2 ==> s.extraDelay < 5)
  }

  /** The first tile has reached the background FIFO. */
  ghost predicate Primed(p: Pipe) {
    p.bg != []
  }

  /** Between dots: either priming, or the FIFO and the fetcher's dot counter add up to
      eight, so that the FIFO is never empty and the fetcher never waits in its push step. */
  ghost predicate PipeInv(p: Pipe) {
    && FetcherOk(p.fetcher)
    && SpriteOk(p.sprite)
    && p.penalty <= 6
    && (Primed(p) ==> !p.fetcher.first && |p.bg| + p.fetcher.dot == 8)
    && (!Primed(p) ==> p.fetcher.dot < 6)
  }

  ghost function PrimeLeft(p: Pipe): int {
    if Primed(p) then 0 else (if p.fetcher.first then 12 else 6) - p.fetcher.dot
  }

  ghost function WindowLeft(p: Pipe): int {
    if p.windowActive then 0 else 18
  }

  /** An upper bound on the dots left until the line is drawn. */
  ghost function Measure(p: Pipe): int {
    WindowLeft(p) + p.penalty + 11 * |p.buffer| + SpriteLeft(p.sprite) + PrimeLeft(p)
      + p.discard + (LCD_WIDTH - p.drawn)
  }

  /** A lower bound on the dots left until the line is drawn. */
  ghost function Floor(p: Pipe): int {
    PrimeLeft(p) + (LCD_WIDTH - p.drawn)
  }

  lemma FetchWhilePriming(p: Pipe, ly: byte, regs: Regs, mem: Memory)
    requires PipeInv(p) && !Primed(p)
    ensures var q := FetchBackground(p, ly, regs, mem);
      PipeInv(q) && PrimeLeft(q) == PrimeLeft(p) - 1
  {
  }

  /** After a pop the fetcher restores the eight: at the eighth dot the FIFO has just run
      empty and the row goes in. */
  lemma FetchAfterPop(p: Pipe, ly: byte, regs: Regs, mem: Memory)
    requires FetcherOk(p.fetcher) && !p.fetcher.first && |p.bg| + p.fetcher.dot == 7
    requires SpriteOk(p.sprite) && p.penalty <= 6
    ensures var q := FetchBackground(p, ly, regs, mem);
      PipeInv(q) && Primed(q)
  {
  }

  lemma FetchSpriteProgress(p: Pipe, ly: byte, regs: Regs, mem: Memory)
    requires PipeInv(p) && p.sprite.target != None
    ensures var q := FetchSprite(p, ly, regs, mem);
      && PipeInv(q) && SpriteLeft(q.sprite) == SpriteLeft(p.sprite) - 1
      && (q.sprite.target == None <==> SpriteLeft(p.sprite) == 1)
  {
  }

  lemma WindowKeepsMeasure(p: Pipe, ly: byte, regs: Regs)
    requires PipeInv(p)
    ensures var q := StartWindow(p, ly, regs);
      PipeInv(q) && Measure(q) <= Measure(p) && Floor(q) >= Floor(p) && q.drawn == p.drawn
  {
  }

  lemma ClaimKeepsMeasure(p: Pipe, regs: Regs)
    requires PipeInv(p)
    ensures var q := ClaimObject(p, regs);
      && PipeInv(q) && Measure(q) <= Measure(p)
      && q == p.(buffer := q.buffer, sprite := q.sprite)
  {
  }

  lemma ShiftProgress(p: Pipe, ly: byte, regs: Regs, mem: Memory)
    requires PipeInv(p) && p.drawn < LCD_WIDTH && p.sprite.target == None
    ensures var q := Shift(p, ly, regs, mem);
      && PipeInv(q) && q.sprite.target == None && q.buffer == p.buffer
      && q.penalty == p.penalty && q.windowActive == p.windowActive
      && Measure(q) == Measure(p) - 1 && Floor(q) >= Floor(p) - 1
      && (q.drawn == p.drawn + 1 <==> Primed(p) && p.discard == 0)
      && (q.drawn == p.drawn || q.drawn == p.drawn + 1)
      && (q.drawn > p.drawn ==> Primed(q))
  {
    if !Primed(p) {
      FetchWhilePriming(p, ly, regs, mem);
    } else {
      var popped := p.(bg := p.bg[1..]);
      if p.discard > 0 {
        FetchAfterPop(popped, ly, regs, mem);
      } else {
        FetchAfterPop(EmitPixel(popped, p.bg[0], regs), ly, regs, mem);
      }
    }
  }

  lemma WorkProgress(p: Pipe, ly: byte, regs: Regs, mem: Memory)
    requires PipeInv(p) && p.drawn < LCD_WIDTH
    ensures var q := Work(p, ly, regs, mem);
      && PipeInv(q) && q.penalty == p.penalty && q.windowActive == p.windowActive
      && Measure(q) == Measure(p) - 1 && Floor(q) >= Floor(p) - 1
      && (q.drawn == p.drawn || q.drawn == p.drawn + 1)
      && (q.drawn > p.drawn ==> Primed(q))
  {
    if p.sprite.target == None {
      ShiftProgress(p, ly, regs, mem);
    } else if Primed(p) {
      FetchSpriteProgress(p, ly, regs, mem);
    } else {
      FetchWhilePriming(p, ly, regs, mem);
    }
  }

  /** Every dot makes progress, under any registers, and none makes more than one dot's worth. */
  lemma DotProgress(p: Pipe, ly: byte, regs: Regs, mem: Memory)
    requires PipeInv(p) && p.drawn < LCD_WIDTH
    ensures var q := DrawDot(p, ly, regs, mem);
      && PipeInv(q)
      && Measure(q) <= Measure(p) - 1
      && Floor(q) >= Floor(p) - 1
      && p.drawn <= q.drawn <= p.drawn + 1
      && (q.drawn > p.drawn ==> Primed(q) && q.penalty == 0)
  {
    WindowKeepsMeasure(p, ly, regs);
    var w := StartWindow(p, ly, regs);
    if w.penalty == 0 {
      ClaimKeepsMeasure(w, regs);
      WorkProgress(ClaimObject(w, regs), ly, regs, mem);
    }
  }

  lemma MeasureNonNegative(p: Pipe)
    requires PipeInv(p) && p.drawn <= LCD_WIDTH
    ensures Measure(p) >= LCD_WIDTH - p.drawn && Floor(p) >= LCD_WIDTH - p.drawn
  {
  }

  /** Once the first tile is in, the FIFO stays supplied until a window restart: its count and
      the fetcher's dot add up to eight after every dot, the fetcher never reaches its push
      step, and every dot that no sprite and no window penalty stalls pops exactly one pixel. */
  lemma PixelSupply(p: Pipe, ly: byte, regs: Regs, mem: Memory)
    requires PipeInv(p) && p.drawn < LCD_WIDTH && Primed(p)
    requires StartWindow(p, ly, regs) == p
    ensures var q := DrawDot(p, ly, regs, mem);
      && Primed(q) && |q.bg| + q.fetcher.dot == 8 && q.fetcher.step != Push
      && q.drawn - q.discard ==
         p.drawn - p.discard + if p.penalty == 0 && ClaimObject(p, regs).sprite.target == None then 1 else 0
  {
    DotProgress(p, ly, regs, mem);
    var c := ClaimObject(p, regs);
    ClaimKeepsMeasure(p, regs);
    if p.penalty == 0 {
      if c.sprite.target == None {
        ShiftKeepsSupply(c, ly, regs, mem);
      } else {
        FetchSpriteProgress(c, ly, regs, mem);
      }
    }
    hide Work, Measure, Floor, ClaimObject;
  }

  lemma ShiftKeepsSupply(p: Pipe, ly: byte, regs: Regs, mem: Memory)
    requires PipeInv(p) && p.drawn < LCD_WIDTH && Primed(p) && p.sprite.target == None
    ensures var q := Shift(p, ly, regs, mem);
      && Primed(q) && PipeInv(q) && q.drawn - q.discard == p.drawn - p.discard + 1
  {
    var popped := p.(bg := p.bg[1..]);
    FetchAfterPop(if p.discard > 0 then popped else EmitPixel(popped, p.bg[0], regs), ly, regs, mem);
    hide TickFetcher, Emitted;
  }

  /** A dot that draws a pixel with objects on leaves no object buffered that starts at or before
      that pixel, whatever the registers were at earlier dots. */
  lemma NoObjectLeftBehind(p: Pipe, ly: byte, regs: Regs, mem: Memory)
    requires p.drawn < LCD_WIDTH && regs.objectsEnabled
    ensures var q := DrawDot(p, ly, regs, mem);
      q.drawn > p.drawn ==>
        q.drawn == p.drawn + 1 && forall o :: o in q.buffer ==> o.x - 8 > p.drawn
  {
    hide TickFetcher, TickSprite, SpriteDelay, WindowReached, Emitted;
    var w := StartWindow(p, ly, regs);
    var k := FirstAt(w.buffer, w.drawn);
    assert k == |w.buffer| ==> forall j :: 0 <= j < |w.buffer| ==> w.buffer[j].x - 8 > w.drawn;
  }
}
