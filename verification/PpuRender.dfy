/** The pixel pipeline paints what the line specification says: an invariant tying both
    FIFOs, both fetchers and the line buffer to `Painted`, kept by every dot. */
module PpuRender {
  import opened Common
  import opened Pixels
  import opened PpuPipe
  import opened PpuPipeTiming
  import opened LineSpec

  // ---------------------------------------------------------------- background stream

  ghost function StreamAddress(l: Line, isWindow: bool, tile: byte): word {
    BgTileAddress(tile, isWindow, l.windowLine, l.ly, l.regs, l.mem)
  }

  ghost function StreamRow(l: Line, isWindow: bool, tile: byte): TileRow {
    var address := StreamAddress(l, isWindow, tile);
    BgRow(l.regs.bgEnabled, l.mem[address], l.mem[Word(address + 1)])
  }

  /** Pixel `n` of what the background fetcher produces after a restart. */
  ghost function Stream(l: Line, isWindow: bool, n: nat): Pixel
    requires n / 8 < 0x100
  {
    StreamRow(l, isWindow, n / 8)[n % 8]
  }

  ghost predicate FetcherHolds(l: Line, isWindow: bool, f: Fetcher) {
    && (f.step != TileAddress ==> f.tileAddress == StreamAddress(l, isWindow, f.x))
    && (f.step == TileDataHigh || f.step == Sleep || f.step == Push ==> f.low == l.mem[f.tileAddress])
    && (f.step == Sleep || f.step == Push ==> f.row == StreamRow(l, isWindow, f.x))
  }

  /** The FIFO holds the stream from pixel `popped` up to the next tile to be pushed. */
  ghost predicate FifoHolds(l: Line, isWindow: bool, f: Fetcher, bg: Fifo, popped: nat) {
    && f.x < 0x80
    && 8 * f.x == popped + |bg|
    && forall k :: 0 <= k < |bg| ==> bg[k] == Stream(l, isWindow, popped + k)
  }

  lemma PushKeepsStream(l: Line, isWindow: bool, f: Fetcher, bg: Fifo, popped: nat, waiting: FetchStep)
    requires FifoHolds(l, isWindow, f, bg, popped) && f.x < 0x7F
    requires f.row == StreamRow(l, isWindow, f.x)
    requires f.tileAddress == StreamAddress(l, isWindow, f.x) && f.low == l.mem[f.tileAddress]
    requires waiting == Sleep || waiting == Push
    ensures var (g, fifo) := PushOrWait(f, bg, waiting);
      FetcherHolds(l, isWindow, g) && FifoHolds(l, isWindow, g, fifo, popped)
  {
    hide StreamRow, StreamAddress;
    if |bg| == 0 {
      var (g, fifo) := PushOrWait(f, bg, waiting);
      forall k | 0 <= k < |fifo| ensures fifo[k] == Stream(l, isWindow, popped + k) {
        assert popped + k == 8 * f.x + k;
        assert (popped + k) / 8 == f.x && (popped + k) % 8 == k;
      }
    }
  }

  lemma TickKeepsStream(l: Line, isWindow: bool, f: Fetcher, bg: Fifo, popped: nat)
    requires FetcherOk(f)
    requires FetcherHolds(l, isWindow, f) && FifoHolds(l, isWindow, f, bg, popped) && f.x < 0x7F
    ensures var (g, fifo) := TickFetcher(f, bg, isWindow, l.windowLine, l.ly, l.regs, l.mem);
      FetcherHolds(l, isWindow, g) && FifoHolds(l, isWindow, g, fifo, popped)
  {
    hide Stream, BgRow, BgTileAddress;
    var d := f.(dot := f.dot + 1);
    if f.stepCycle == 1 {
      match f.step {
        case TileDataHigh =>
          var g := d.(row := BgRow(l.regs.bgEnabled, f.low, l.mem[Word(f.tileAddress + 1)]));
          assert g.row == StreamRow(l, isWindow, f.x);
          if !f.first {
            PushKeepsStream(l, isWindow, g, bg, popped, Sleep);
          }
        case Sleep => PushKeepsStream(l, isWindow, d, bg, popped, Push);
        case _ =>
      }
    }
  }

  lemma PopKeepsStream(l: Line, isWindow: bool, f: Fetcher, bg: Fifo, popped: nat)
    requires FifoHolds(l, isWindow, f, bg, popped) && bg != []
    ensures bg[0] == Stream(l, isWindow, popped)
    ensures FifoHolds(l, isWindow, f, bg[1..], popped + 1)
  {
    hide Stream;
    forall k | 0 <= k < |bg| - 1 ensures bg[1..][k] == Stream(l, isWindow, popped + 1 + k) {
      assert bg[1..][k] == bg[k + 1];
    }
  }

  /** A fetched tile row is a row of map pixels. */
  lemma StreamIsMap(l: Line, isWindow: bool, tile: byte, k: nat, mapX: nat)
    requires k < 8 && mapX < 0x100 && mapX % 8 == k && mapX / 8 == TileX(l.regs.scx, tile, isWindow)
    ensures StreamRow(l, isWindow, tile)[k]
      == MapPixel(l, if isWindow then l.regs.windowMapHigh else l.regs.bgMapHigh, mapX,
                  FetcherY(l.regs.scy, l.ly, isWindow, l.windowLine))
  {
    hide DecodeTile, TileRowAddress, TileX;
    var y: nat := FetcherY(l.regs.scy, l.ly, isWindow, l.windowLine);
    assert y / 8 % 32 == y / 8;
    assert Word(TilemapBase(isWindow, l.regs) + y / 8 % 32 * 32 + mapX / 8)
      == TilemapBase(isWindow, l.regs) + y / 8 * 32 + mapX / 8;
  }

  /** The fetched stream, read at the right offset, is the tile map. */
  lemma StreamIsBackground(l: Line, x: nat)
    requires x < LCD_WIDTH
    ensures x < WindowFrom(l) ==> BackgroundAt(l, x) == Stream(l, false, l.regs.scx % 8 + x)
    ensures x >= WindowFrom(l) ==> BackgroundAt(l, x) == Stream(l, true, x - WindowFrom(l))
  {
    hide DecodeTile, TileRowAddress, StreamRow, MapPixel, WindowFrom;
    if x < WindowFrom(l) {
      ScrolledColumn(l.regs.scx, x);
      var n := l.regs.scx % 8 + x;
      StreamIsMap(l, false, n / 8, n % 8, (l.regs.scx + x) % 0x100);
    } else {
      var n := x - WindowFrom(l);
      StreamIsMap(l, true, n / 8, n % 8, n);
    }
  }

  lemma TileAndOffset(tile: nat, offset: nat)
    requires offset < 8
    ensures (8 * tile + offset) % 0x100 == 8 * (tile % 32) + offset
    ensures (8 * (tile % 32) + offset) / 8 == tile % 32 && (8 * (tile % 32) + offset) % 8 == offset
  {
    assert 8 * tile + offset == 0x100 * (tile / 32) + (8 * (tile % 32) + offset);
  }

  lemma ScrolledColumn(scx: byte, x: nat)
    requires x < LCD_WIDTH
    ensures var n := scx % 8 + x;
      && (scx + x) % 0x100 / 8 == (scx / 8 + n / 8) % 32
      && (scx + x) % 0x100 % 8 == n % 8
  {
    var n := scx % 8 + x;
    assert scx + x == 8 * (scx / 8 + n / 8) + n % 8;
    TileAndOffset(scx / 8 + n / 8, n % 8);
  }

  // ---------------------------------------------------------------- sprites

  ghost predicate TargetHolds(l: Line, s: SpriteFetcher, drawn: nat) {
    s.target != None ==>
      && Start(s.target.value) == drawn
      && (s.step != SpriteAddress ==> s.tileAddress == SpriteTileAddress(s.target.value, l.ly, l.regs.tallObjects))
      && (s.step == SpriteDataHigh ==> s.low == l.mem[s.tileAddress])
  }

  /** The sprite FIFO holds, for the next eight columns, the resolved pixels of the objects fetched so far. */
  ghost predicate SpriteFifoHolds(l: Line, fifo: Fifo, drawn: nat, fetched: seq<Object>) {
    && (forall o :: o in fetched ==> Start(o) <= drawn)
    && forall k :: 0 <= k < 8 ==> Padded(fifo)[k] == Fold(Contributions(l, fetched, drawn + k))
  }

  lemma MergeAddsObject(l: Line, fifo: Fifo, drawn: nat, fetched: seq<Object>, o: Object)
    requires SpriteFifoHolds(l, fifo, drawn, fetched) && Start(o) == drawn
    ensures SpriteFifoHolds(l, MergeRow(fifo, ObjectRow(l, o)), drawn, fetched + [o])
  {
    hide ObjectRow, Start, Resolve;
    var merged := MergeRow(fifo, ObjectRow(l, o));
    assert (fetched + [o])[..|fetched|] == fetched;
    forall k | 0 <= k < 8 ensures Padded(merged)[k] == Fold(Contributions(l, fetched + [o], drawn + k)) {
      var cs, c := Contributions(l, fetched, drawn + k), ObjectRow(l, o)[k];
      assert Contributions(l, fetched + [o], drawn + k) == cs + [c];
      assert (cs + [c])[..|cs|] == cs;
      assert Fold(cs + [c]) == Resolve(Fold(cs), c);
    }
  }

  lemma ShiftSpriteFifo(l: Line, fifo: Fifo, drawn: nat, fetched: seq<Object>)
    requires SpriteFifoHolds(l, fifo, drawn, fetched)
    ensures SpriteFifoHolds(l, if fifo == [] then [] else fifo[1..], drawn + 1, fetched)
  {
    hide ObjectRow, Start;
    var rest: Fifo := if fifo == [] then [] else fifo[1..];
    forall k | 0 <= k < 8 ensures Padded(rest)[k] == Fold(Contributions(l, fetched, drawn + 1 + k)) {
      if k < 7 {
        assert Padded(rest)[k] == Padded(fifo)[k + 1];
      } else {
        forall o | o in fetched ensures !Covers(o, drawn + 8) {
        }
        NoContributions(l, fetched, drawn + 8);
      }
    }
  }

  /** Every object of the line is fetched, being fetched, or still buffered for a later column. */
  ghost predicate ObjectsSplit(l: Line, p: Pipe, fetched: seq<Object>) {
    && (forall o :: o in l.objects <==> o in fetched || o in p.buffer || p.sprite.target == Some(o))
    && (l.regs.objectsEnabled ==> forall o :: o in p.buffer ==> Start(o) >= p.drawn)
    && (!l.regs.objectsEnabled ==> fetched == [] && p.sprite.target == None)
  }

  ghost predicate SpritesHold(l: Line, p: Pipe, fetched: seq<Object>) {
    && TargetHolds(l, p.sprite, p.drawn)
    && SpriteFifoHolds(l, p.objFifo, p.drawn, fetched)
    && ObjectsSplit(l, p, fetched)
  }

  /** What one dot of the sprite fetcher does to the list of fetched objects. */
  ghost function FetchedAfter(fetched: seq<Object>, before: SpriteFetcher, after: SpriteFetcher): seq<Object> {
    if before.target.Some? && after.target == None then fetched + [before.target.value] else fetched
  }

  lemma FetchSpriteKeeps(l: Line, p: Pipe, fetched: seq<Object>)
    requires SpritesHold(l, p, fetched)
    ensures var q := FetchSprite(p, l.ly, l.regs, l.mem);
      SpritesHold(l, q, FetchedAfter(fetched, p.sprite, q.sprite))
  {
    hide SpriteRow, SpriteTileAddress, Contributions, SpriteFifoHolds, Start, MergeRow;
    var q := FetchSprite(p, l.ly, l.regs, l.mem);
    if p.sprite.target.Some? && q.sprite.target == None {
      var o := p.sprite.target.value;
      assert q.objFifo == MergeRow(p.objFifo, ObjectRow(l, o));
      MergeAddsObject(l, p.objFifo, p.drawn, fetched, o);
    }
  }

  /** Taking the object found at `x` out of the buffer loses no other object. */
  lemma TakeOut(buffer: seq<Object>, x: nat)
    requires FirstAt(buffer, x) < |buffer|
    ensures var k := FirstAt(buffer, x);
      forall o :: o in buffer <==> o in buffer[..k] + buffer[k + 1..] || o == buffer[k]
  {
    var k := FirstAt(buffer, x);
    assert buffer == buffer[..k] + [buffer[k]] + buffer[k + 1..];
  }

  lemma ClaimSplits(l: Line, p: Pipe, fetched: seq<Object>)
    requires ObjectsSplit(l, p, fetched) && l.regs.objectsEnabled && p.sprite.target == None
    requires FirstAt(p.buffer, p.drawn) < |p.buffer|
    ensures var q := ClaimObject(p, l.regs);
      && ObjectsSplit(l, q, fetched)
      && q.sprite.target.Some? && Start(q.sprite.target.value) == p.drawn && q.sprite.step == SpriteAddress
  {
    hide FirstAt, SpriteDelay, TileX;
    TakeOut(p.buffer, p.drawn);
    var k := FirstAt(p.buffer, p.drawn);
    assert p.buffer[k] in p.buffer;
  }

  lemma ClaimKeeps(l: Line, p: Pipe, fetched: seq<Object>)
    requires SpritesHold(l, p, fetched)
    ensures var q := ClaimObject(p, l.regs);
      && SpritesHold(l, q, fetched)
      && (l.regs.objectsEnabled && q.sprite.target == None ==> forall o :: o in q.buffer ==> Start(o) > p.drawn)
  {
    hide ObjectsSplit, SpriteFifoHolds, FirstAt;
    var k := FirstAt(p.buffer, p.drawn);
    if l.regs.objectsEnabled && p.sprite.target == None {
      if k < |p.buffer| {
        ClaimSplits(l, p, fetched);
      } else {
        assert forall j :: 0 <= j < |p.buffer| ==> p.buffer[j].x - 8 > p.drawn;
      }
    }
  }

  /** When a column is drawn, the sprite FIFO's head is that column's sprite pixel. */
  lemma SpriteHead(l: Line, p: Pipe, fetched: seq<Object>)
    requires SpritesHold(l, p, fetched) && DistinctObjects(l.objects) && p.sprite.target == None
    requires l.regs.objectsEnabled ==> forall o :: o in p.buffer ==> Start(o) > p.drawn
    ensures var head, spec := Padded(p.objFifo)[0], SpriteAt(l, p.drawn);
      head == spec || (head.color == 0 && spec.color == 0)
  {
    hide ObjectRow;
    assert Padded(p.objFifo)[0] == Fold(Contributions(l, fetched, p.drawn + 0));
    if l.regs.objectsEnabled {
      hide Contributions, Fold, SpriteFifoHolds, TargetHolds, Padded;
      forall o | Covers(o, p.drawn) ensures o in fetched <==> o in l.objects {
        assert o in p.buffer ==> Start(o) > p.drawn;
      }
      SameColumn(l, fetched, l.objects, p.drawn);
    }
  }

  // ---------------------------------------------------------------- one dot

  /** How many background pixels have left the FIFO since the fetch last restarted. */
  ghost function Popped(l: Line, p: Pipe): int {
    if p.windowActive then p.drawn - WindowFrom(l) else l.regs.scx % 8 - p.discard + p.drawn
  }

  ghost predicate WindowHolds(l: Line, p: Pipe) {
    if p.windowActive then WindowFrom(l) <= p.drawn && p.discard == 0 && p.windowLine == l.windowLine
    else
      && p.drawn <= WindowFrom(l)
      && p.discard <= l.regs.scx % 8 && (p.discard > 0 ==> p.drawn == 0)
      && l.windowLine == (if l.ly == l.regs.wy then 0 else p.windowLine)
  }

  ghost predicate BackgroundHolds(l: Line, p: Pipe) {
    && WindowHolds(l, p)
    && 0 <= Popped(l, p) <= LCD_WIDTH + 7
    && FetcherHolds(l, p.windowActive, p.fetcher)
    && FifoHolds(l, p.windowActive, p.fetcher, p.bg, Popped(l, p))
  }

  ghost predicate LineHolds(l: Line, p: Pipe) {
    p.drawn <= LCD_WIDTH && forall x :: 0 <= x < p.drawn ==> p.line[x] == Painted(l, x)
  }

  ghost predicate Renders(l: Line, p: Pipe, fetched: seq<Object>) {
    && PipeInv(p)
    && DistinctObjects(l.objects)
    && BackgroundHolds(l, p)
    && SpritesHold(l, p, fetched)
    && LineHolds(l, p)
  }

  lemma WindowKeeps(l: Line, p: Pipe)
    requires BackgroundHolds(l, p) && p.drawn < LCD_WIDTH
    ensures var q := StartWindow(p, l.ly, l.regs);
      && BackgroundHolds(l, q)
      && (q.windowActive <==> q.drawn >= WindowFrom(l))
      && q == p.(bg := q.bg, fetcher := q.fetcher, windowActive := q.windowActive, windowLine := q.windowLine,
                 discard := q.discard, penalty := q.penalty)
  {
    hide StreamAddress, StreamRow, Stream;
  }

  lemma FetchKeepsBackground(l: Line, p: Pipe)
    requires FetcherOk(p.fetcher) && BackgroundHolds(l, p)
    ensures var q := FetchBackground(p, l.ly, l.regs, l.mem);
      BackgroundHolds(l, q) && q == p.(fetcher := q.fetcher, bg := q.bg)
  {
    hide FifoHolds, FetcherHolds, WindowFrom, TickFetcher;
    if p.windowActive {
      FewTiles(l, p.windowActive, p.fetcher, p.bg, Popped(l, p));
      TickKeepsStream(l, true, p.fetcher, p.bg, Popped(l, p));
    } else {
      FewTiles(l, p.windowActive, p.fetcher, p.bg, Popped(l, p));
      TickKeepsBackgroundStream(l, p.windowLine, p.fetcher, p.bg, Popped(l, p));
    }
  }

  lemma FewTiles(l: Line, isWindow: bool, f: Fetcher, bg: Fifo, popped: nat)
    requires FifoHolds(l, isWindow, f, bg, popped) && popped <= LCD_WIDTH + 7
    ensures f.x < 0x7F
  {
  }

  /** The window's line counter plays no part in fetching the background proper. */
  lemma TickKeepsBackgroundStream(l: Line, windowLine: byte, f: Fetcher, bg: Fifo, popped: nat)
    requires FetcherOk(f)
    requires FetcherHolds(l, false, f) && FifoHolds(l, false, f, bg, popped) && f.x < 0x7F
    ensures var (g, fifo) := TickFetcher(f, bg, false, windowLine, l.ly, l.regs, l.mem);
      FetcherHolds(l, false, g) && FifoHolds(l, false, g, fifo, popped)
  {
    TickKeepsStream(l, false, f, bg, popped);
    hide FifoHolds, FetcherHolds, BgRow, TileRowAddress;
    assert BgTileAddress(f.x, false, windowLine, l.ly, l.regs, l.mem)
      == BgTileAddress(f.x, false, l.windowLine, l.ly, l.regs, l.mem);
  }

  lemma PopKeepsBackground(l: Line, p: Pipe)
    requires BackgroundHolds(l, p) && p.drawn < LCD_WIDTH && p.bg != []
    ensures p.discard > 0 ==> BackgroundHolds(l, p.(bg := p.bg[1..], discard := p.discard - 1))
    ensures p.discard == 0 && (p.windowActive <==> p.drawn >= WindowFrom(l)) ==>
      BackgroundHolds(l, p.(bg := p.bg[1..], drawn := p.drawn + 1)) && p.bg[0] == BackgroundAt(l, p.drawn)
  {
    hide Stream, BackgroundAt, FetcherHolds;
    PopKeepsStream(l, p.windowActive, p.fetcher, p.bg, Popped(l, p));
    StreamIsBackground(l, p.drawn);
    hide WindowFrom, FifoHolds;
  }

  lemma EmitPaints(l: Line, p: Pipe, bg: Pixel, fetched: seq<Object>)
    requires p.drawn < LCD_WIDTH && bg == BackgroundAt(l, p.drawn) && LineHolds(l, p)
    requires SpritesHold(l, p, fetched) && DistinctObjects(l.objects) && p.sprite.target == None
    requires l.regs.objectsEnabled ==> forall o :: o in p.buffer ==> Start(o) > p.drawn
    ensures LineHolds(l, EmitPixel(p, bg, l.regs))
  {
    SpriteHead(l, p, fetched);
    hide BackgroundAt, SpriteAt, Shade, SpritesHold;
    assert Emitted(bg, p.objFifo, l.regs) == Painted(l, p.drawn);
  }

  lemma EmitKeepsSprites(l: Line, p: Pipe, bg: Pixel, fetched: seq<Object>)
    requires p.drawn < LCD_WIDTH && SpritesHold(l, p, fetched) && p.sprite.target == None
    requires l.regs.objectsEnabled ==> forall o :: o in p.buffer ==> Start(o) > p.drawn
    ensures SpritesHold(l, EmitPixel(p, bg, l.regs), fetched)
  {
    hide SpriteFifoHolds, Start, Emitted;
    ShiftSpriteFifo(l, p.objFifo, p.drawn, fetched);
  }

  ghost predicate Picture(l: Line, p: Pipe, fetched: seq<Object>) {
    BackgroundHolds(l, p) && SpritesHold(l, p, fetched) && LineHolds(l, p)
  }

  lemma FetchKeepsPicture(l: Line, p: Pipe, fetched: seq<Object>)
    requires FetcherOk(p.fetcher) && Picture(l, p, fetched)
    ensures Picture(l, FetchBackground(p, l.ly, l.regs, l.mem), fetched)
  {
    FetchKeepsBackground(l, p);
    FetchBackgroundKeepsSprites(l, p, fetched);
    hide BackgroundHolds, SpritesHold, Painted, TickFetcher;
  }

  lemma DiscardKeepsPicture(l: Line, p: Pipe, fetched: seq<Object>)
    requires Picture(l, p, fetched) && p.drawn < LCD_WIDTH && p.bg != [] && p.discard > 0
    ensures Picture(l, p.(bg := p.bg[1..], discard := p.discard - 1), fetched)
  {
    PopKeepsBackground(l, p);
    hide BackgroundHolds, Painted, SpriteFifoHolds, TargetHolds, Start;
  }

  lemma DrawKeepsPicture(l: Line, p: Pipe, fetched: seq<Object>)
    requires Picture(l, p, fetched) && p.drawn < LCD_WIDTH && p.bg != [] && p.discard == 0
    requires DistinctObjects(l.objects) && p.sprite.target == None
    requires p.windowActive <==> p.drawn >= WindowFrom(l)
    requires l.regs.objectsEnabled ==> forall o :: o in p.buffer ==> Start(o) > p.drawn
    ensures Picture(l, EmitPixel(p.(bg := p.bg[1..]), p.bg[0], l.regs), fetched)
  {
    hide BackgroundHolds, BackgroundAt, SpritesHold, Painted, WindowFrom, Start, Emitted;
    PopKeepsBackground(l, p);
    PopKeepsSprites(l, p, fetched);
    var popped := p.(bg := p.bg[1..]);
    assert LineHolds(l, popped);
    hide LineHolds, EmitPixel;
    EmitPaints(l, popped, p.bg[0], fetched);
    EmitKeepsSprites(l, popped, p.bg[0], fetched);
    EmitKeepsBackground(l, popped, p.bg[0]);
  }

  lemma PopKeepsSprites(l: Line, p: Pipe, fetched: seq<Object>)
    requires SpritesHold(l, p, fetched) && p.bg != []
    ensures SpritesHold(l, p.(bg := p.bg[1..]), fetched)
  {
    hide SpriteFifoHolds, TargetHolds, Start;
  }

  lemma ShiftRenders(l: Line, p: Pipe, fetched: seq<Object>)
    requires Renders(l, p, fetched) && p.drawn < LCD_WIDTH && p.sprite.target == None
    requires p.windowActive <==> p.drawn >= WindowFrom(l)
    requires l.regs.objectsEnabled ==> forall o :: o in p.buffer ==> Start(o) > p.drawn
    ensures Renders(l, Shift(p, l.ly, l.regs, l.mem), fetched)
  {
    hide PipeInv, FetcherOk, BackgroundHolds, SpritesHold, LineHolds, WindowFrom, Start, EmitPixel, FetchBackground,
      Measure, Floor, Primed;
    ShiftProgress(p, l.ly, l.regs, l.mem);
    RenderedFetcher(p);
    if p.bg == [] {
      FetchKeepsPicture(l, p, fetched);
    } else if p.discard > 0 {
      DiscardKeepsPicture(l, p, fetched);
      DiscardCommutes(p.(bg := p.bg[1..]), l);
      FetchKeepsPicture(l, p.(bg := p.bg[1..], discard := p.discard - 1), fetched);
    } else {
      var emitted := EmitPixel(p.(bg := p.bg[1..]), p.bg[0], l.regs);
      DrawKeepsPicture(l, p, fetched);
      EmitKeepsFetcher(p.(bg := p.bg[1..]), p.bg[0], l.regs);
      FetchKeepsPicture(l, emitted, fetched);
    }
  }

  lemma EmitKeepsFetcher(p: Pipe, bg: Pixel, regs: Regs)
    requires p.drawn < LCD_WIDTH
    ensures EmitPixel(p, bg, regs).fetcher == p.fetcher
  {
  }

  lemma RenderedFetcher(p: Pipe)
    requires PipeInv(p)
    ensures FetcherOk(p.fetcher)
  {
  }

  lemma DiscardCommutes(p: Pipe, l: Line)
    requires p.discard > 0
    ensures FetchBackground(p, l.ly, l.regs, l.mem).(discard := p.discard - 1)
      == FetchBackground(p.(discard := p.discard - 1), l.ly, l.regs, l.mem)
  {
    hide TickFetcher;
  }

  lemma EmitKeepsBackground(l: Line, p: Pipe, bg: Pixel)
    requires p.drawn < LCD_WIDTH && BackgroundHolds(l, p.(drawn := p.drawn + 1))
    ensures BackgroundHolds(l, EmitPixel(p, bg, l.regs))
  {
    hide FifoHolds, FetcherHolds, WindowFrom, Emitted;
  }

  lemma WorkRenders(l: Line, p: Pipe, fetched: seq<Object>)
    requires Renders(l, p, fetched) && p.drawn < LCD_WIDTH
    requires p.windowActive <==> p.drawn >= WindowFrom(l)
    requires l.regs.objectsEnabled && p.sprite.target == None ==> forall o :: o in p.buffer ==> Start(o) > p.drawn
    ensures var q := Work(p, l.ly, l.regs, l.mem);
      Renders(l, q, FetchedAfter(fetched, p.sprite, q.sprite))
  {
    WorkProgress(p, l.ly, l.regs, l.mem);
    RenderedFetcher(p);
    hide PipeInv, FetcherOk, BackgroundHolds, SpritesHold, WindowFrom, Painted, Start, TickFetcher, TickSprite, Shift;
    if p.sprite.target == None {
      ShiftRenders(l, p, fetched);
      ShiftKeepsTarget(l, p, fetched);
    } else if p.fetcher.dot >= 6 || |p.bg| > 0 {
      FetchSpriteKeeps(l, p, fetched);
      FetchSpriteKeepsBackground(l, p);
    } else {
      FetchKeepsBackground(l, p);
      FetchBackgroundKeepsSprites(l, p, fetched);
    }
  }

  lemma ShiftKeepsTarget(l: Line, p: Pipe, fetched: seq<Object>)
    requires PipeInv(p) && p.drawn < LCD_WIDTH && p.sprite.target == None
    ensures FetchedAfter(fetched, p.sprite, Shift(p, l.ly, l.regs, l.mem).sprite) == fetched
  {
    hide TickFetcher, Emitted;
  }

  lemma FetchSpriteKeepsBackground(l: Line, p: Pipe)
    requires BackgroundHolds(l, p)
    ensures var q := FetchSprite(p, l.ly, l.regs, l.mem);
      BackgroundHolds(l, q) && q == p.(sprite := q.sprite, objFifo := q.objFifo)
  {
    hide FifoHolds, FetcherHolds, WindowFrom, TickSprite;
  }

  lemma FetchBackgroundKeepsSprites(l: Line, p: Pipe, fetched: seq<Object>)
    requires SpritesHold(l, p, fetched)
    ensures SpritesHold(l, FetchBackground(p, l.ly, l.regs, l.mem), fetched)
  {
    hide TickFetcher, SpriteFifoHolds, TargetHolds;
  }

  lemma WindowRenders(l: Line, p: Pipe, fetched: seq<Object>)
    requires Renders(l, p, fetched) && p.drawn < LCD_WIDTH
    ensures var q := StartWindow(p, l.ly, l.regs);
      && Renders(l, q, fetched) && q.drawn == p.drawn && q.sprite == p.sprite
      && (q.windowActive <==> q.drawn >= WindowFrom(l))
      && (q.penalty > 0 ==> Renders(l, q.(penalty := q.penalty - 1), fetched))
  {
    hide BackgroundHolds, SpriteFifoHolds, TargetHolds, Painted, WindowFrom, StartWindow, PipeInv, Start, Measure,
      Floor;
    WindowKeepsMeasure(p, l.ly, l.regs);
    WindowKeeps(l, p);
    var q := StartWindow(p, l.ly, l.regs);
    PenaltyKeeps(l, q);
  }

  lemma PenaltyKeeps(l: Line, p: Pipe)
    requires BackgroundHolds(l, p) && PipeInv(p)
    ensures p.penalty > 0 ==> BackgroundHolds(l, p.(penalty := p.penalty - 1)) && PipeInv(p.(penalty := p.penalty - 1))
  {
    hide FifoHolds, FetcherHolds, WindowFrom;
  }

  lemma ClaimRenders(l: Line, p: Pipe, fetched: seq<Object>)
    requires Renders(l, p, fetched)
    ensures var q := ClaimObject(p, l.regs);
      && Renders(l, q, fetched) && q.drawn == p.drawn && q.windowActive == p.windowActive
      && (l.regs.objectsEnabled && q.sprite.target == None ==> forall o :: o in q.buffer ==> Start(o) > p.drawn)
      && (p.sprite.target.Some? ==> q.sprite == p.sprite)
  {
    ClaimKeepsMeasure(p, l.regs);
    ClaimKeeps(l, p, fetched);
    ClaimKeepsBackground(l, p);
    hide BackgroundHolds, Start, SpritesHold, PipeInv, Painted, FirstAt, SetTarget;
  }

  lemma ClaimKeepsBackground(l: Line, p: Pipe)
    requires BackgroundHolds(l, p)
    ensures BackgroundHolds(l, ClaimObject(p, l.regs))
  {
    hide FifoHolds, FetcherHolds, WindowFrom, FirstAt, SetTarget;
  }

  /** One dot of drawing keeps the picture right; `after` extends `fetched` by the object
      whose fetch the dot completes, if any. */
  lemma DotRenders(l: Line, p: Pipe, fetched: seq<Object>) returns (after: seq<Object>)
    requires Renders(l, p, fetched) && p.drawn < LCD_WIDTH
    ensures Renders(l, DrawDot(p, l.ly, l.regs, l.mem), after)
  {
    hide Renders, WindowFrom, Start, StartWindow, ClaimObject, Work;
    WindowRenders(l, p, fetched);
    var w := StartWindow(p, l.ly, l.regs);
    if w.penalty > 0 {
      after := fetched;
    } else {
      ClaimRenders(l, w, fetched);
      var c := ClaimObject(w, l.regs);
      WorkRenders(l, c, fetched);
      after := FetchedAfter(fetched, c.sprite, Work(c, l.ly, l.regs, l.mem).sprite);
    }
  }

  /** The picture starts out right: nothing drawn, everything scanned still buffered. */
  lemma StartRenders(l: Line, p: Pipe)
    requires !p.windowActive && p.penalty == 0
    requires p.buffer == l.objects && DistinctObjects(l.objects)
    requires l.windowLine == if l.ly == l.regs.wy then 0 else p.windowLine
    ensures Renders(l, StartDrawing(p, l.regs.scx), [])
  {
    StartDrawingOk(l, p);
    hide Painted, PipeInv;
    var q := StartDrawing(p, l.regs.scx);
    assert forall k :: 0 <= k < 8 ==> Contributions(l, [], k) == [];
  }

  lemma StartDrawingOk(l: Line, p: Pipe)
    requires !p.windowActive && p.penalty == 0
    ensures PipeInv(StartDrawing(p, l.regs.scx))
  {
  }
}
