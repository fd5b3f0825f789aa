/** The drawing pipeline of one scanline: background fetcher, sprite fetcher, the two
    pixel FIFOs and the sprite buffer, one dot at a time. */
module PpuPipe {
  import opened Common
  import opened Pixels

  const FIFO_SIZE := 8
  const MAX_OBJECTS_PER_LINE := 10
  const LCD_WIDTH := 160

  type Fifo = s: seq<Pixel> | |s| <= FIFO_SIZE
  type TileRow = s: seq<Pixel> | |s| == 8 witness seq(8, i => TRANSPARENT)
  type ObjectBuffer = s: seq<Object> | |s| <= MAX_OBJECTS_PER_LINE
  type LineBuffer = s: seq<nat> | |s| == LCD_WIDTH witness seq(LCD_WIDTH, i => 0)

  /** The registers the CPU may rewrite between any two dots. */
  datatype Regs = Regs(
    windowEnabled: bool, windowMapHigh: bool,
    bgDataUnsigned: bool, bgMapHigh: bool,
    objectsEnabled: bool, tallObjects: bool,
    bgEnabled: bool,
    scx: byte, scy: byte, wx: byte, wy: byte,
    bgp: byte, obp0: byte, obp1: byte)

  datatype FetchStep = TileAddress | TileDataLow | TileDataHigh | Sleep | Push

  datatype Fetcher = Fetcher(
    x: byte, step: FetchStep, stepCycle: nat,
    tileAddress: word, low: byte, row: TileRow,
    dot: nat, first: bool)

  datatype SpriteStep = SpriteAddress | SpriteDataLow | SpriteDataHigh

  datatype SpriteFetcher = SpriteFetcher(
    step: SpriteStep, stepCycle: nat,
    lastTile: Option<byte>, lastX: Option<byte>, extraDelay: byte,
    target: Option<Object>, tileAddress: word, low: byte)

  datatype Pipe = Pipe(
    bg: Fifo, fetcher: Fetcher,
    objFifo: Fifo, buffer: ObjectBuffer, sprite: SpriteFetcher,
    windowActive: bool, penalty: nat, windowLine: byte,
    drawn: nat, discard: nat, line: LineBuffer)

  // ---------------------------------------------------------------- tile data

  function FetcherY(scy: byte, ly: byte, isWindow: bool, windowLine: byte): byte {
    if isWindow then windowLine else Byte(ly + scy)
  }

  function TileX(scx: byte, fetcherX: byte, isWindow: bool): byte {
    if isWindow then fetcherX else (scx / 8 + fetcherX) % 32
  }

  function TilemapBase(isWindow: bool, regs: Regs): word {
    if (if isWindow then regs.windowMapHigh else regs.bgMapHigh) then 0x9C00 else 0x9800
  }

  function SignedByte(b: byte): int {
    if b < 0x80 then b else b - 0x100
  }

  function TileRowAddress(unsignedMode: bool, tile: byte, tileLine: nat): word {
    if unsignedMode then Word(0x8000 + tile * 16 + tileLine * 2)
    else Word(0x9000 + SignedByte(tile) * 16 + tileLine * 2)
  }

  /** Address of the row of tile data the background fetcher reads for its tile `fetcherX`. */
  function BgTileAddress(fetcherX: byte, isWindow: bool, windowLine: byte, ly: byte, regs: Regs, mem: Memory): word {
    var fetcherY := FetcherY(regs.scy, ly, isWindow, windowLine);
    var tilemapAddress := Word(TilemapBase(isWindow, regs) + (fetcherY / 8) % 32 * 32
      + TileX(regs.scx, fetcherX, isWindow));
    TileRowAddress(regs.bgDataUnsigned, mem[tilemapAddress], fetcherY % 8)
  }

  function DecodeTile(i: nat, low: byte, high: byte): nat
    requires i < 8
  {
    Bit(high, i) * 2 + Bit(low, i)
  }

  function BgRow(bgEnabled: bool, low: byte, high: byte): TileRow {
    seq(8, i requires 0 <= i < 8 =>
      Pixel(if bgEnabled then DecodeTile(7 - i, low, high) else 0, None, false, None, None))
  }

  function SpriteTileLine(o: Object, ly: byte, tall: bool): byte {
    var tileLine := Byte(ly - (o.y - 16));
    if o.yFlip then Byte((if tall then 16 else 8) - 1 - tileLine) else tileLine
  }

  function SpriteTileIndex(o: Object, tileLine: byte, tall: bool): byte {
    if !tall then o.tile
    else if tileLine < 8 then o.tile / 2 * 2
    else o.tile / 2 * 2 + 1
  }

  function SpriteTileAddress(o: Object, ly: byte, tall: bool): word {
    var tileLine := SpriteTileLine(o, ly, tall);
    Word(0x8000 + SpriteTileIndex(o, tileLine, tall) * 16 + tileLine % 8 * 2)
  }

  function SpriteRow(o: Object, low: byte, high: byte): TileRow {
    seq(8, i requires 0 <= i < 8 =>
      Pixel(DecodeTile(if o.xFlip then i else 7 - i, low, high),
            Some(if o.altPalette then 1 else 0), o.priority, Some(o.x), Some(o.index)))
  }

  // ---------------------------------------------------------------- background fetcher

  function ResetFetcher(f: Fetcher): Fetcher {
    f.(first := true, x := 0, step := TileAddress, stepCycle := 0, dot := 0)
  }

  /** A whole tile row enters the background FIFO only when the FIFO is empty. */
  function TryPush(bg: Fifo, row: TileRow): Option<Fifo> {
    if |bg| + |row| <= FIFO_SIZE then Some(bg + row) else None
  }

  /** Push the fetched row if there is room and start the next tile, or else wait in `waiting`. */
  function PushOrWait(f: Fetcher, bg: Fifo, waiting: FetchStep): (Fetcher, Fifo) {
    match TryPush(bg, f.row)
    case Some(pushed) => (f.(dot := 0, x := Byte(f.x + 1), step := TileAddress, stepCycle := 0), pushed)
    case None => (f.(step := waiting, stepCycle := 0), bg)
  }

  function TickFetcher(f0: Fetcher, bg: Fifo, isWindow: bool, windowLine: byte, ly: byte, regs: Regs, mem: Memory)
    : (Fetcher, Fifo)
  {
    var f := f0.(dot := f0.dot + 1);
    if f.step == Push then
      match TryPush(bg, f.row) {
        case Some(pushed) => (f.(dot := 0, x := Byte(f.x + 1), step := TileAddress, stepCycle := 0), pushed)
        case None => (f, bg)
      }
    else if f.stepCycle + 1 < 2 then (f.(stepCycle := f.stepCycle + 1), bg)
    else
      match f.step
      case TileAddress =>
        (f.(tileAddress := BgTileAddress(f.x, isWindow, windowLine, ly, regs, mem), step := TileDataLow,
          stepCycle := 0), bg)
      case TileDataLow => (f.(low := mem[f.tileAddress], step := TileDataHigh, stepCycle := 0), bg)
      case TileDataHigh =>
        var g := f.(row := BgRow(regs.bgEnabled, f.low, mem[Word(f.tileAddress + 1)]));
        if g.first then (g.(dot := 0, first := false, step := TileAddress, stepCycle := 0), bg)
        else PushOrWait(g, bg, Sleep)
      case _ => PushOrWait(f, bg, Push)
  }

  // ---------------------------------------------------------------- sprite fetcher

  function ResetSprite(s: SpriteFetcher): SpriteFetcher {
    s.(step := SpriteAddress, stepCycle := 0, target := None, extraDelay := 0, lastTile := None, lastX := None)
  }

  /** Extra dots a sprite costs beyond the six of its tile fetch. */
  function SpriteDelay(s: SpriteFetcher, o: Object, isWindow: bool, scx: byte): byte {
    var tile := TileX(scx, o.x, isWindow) / 8;
    var sameTile := s.lastTile.Some? && s.lastTile.value == tile;
    var sameGroup := s.lastX.Some? && o.x - s.lastX.value <= 8;
    if sameTile && sameGroup then 0
    else if o.x == 0 then 5
    else if o.x % 8 <= 5 then 5 - o.x % 8 else 0
  }

  function SetTarget(s: SpriteFetcher, o: Object, isWindow: bool, scx: byte): SpriteFetcher {
    s.(step := SpriteAddress, stepCycle := 0, target := Some(o),
       extraDelay := SpriteDelay(s, o, isWindow, scx),
       lastX := Some(o.x), lastTile := Some(TileX(scx, o.x, isWindow) / 8))
  }

  /** The FIFO filled up to eight entries with transparent pixels. */
  function Padded(fifo: Fifo): TileRow {
    seq(8, i requires 0 <= i < 8 => if i < |fifo| then fifo[i] else TRANSPARENT)
  }

  function MergeRow(fifo: Fifo, row: TileRow): Fifo {
    var padded := Padded(fifo);
    seq(8, i requires 0 <= i < 8 => Resolve(padded[i], row[i]))
  }

  function TickSprite(s0: SpriteFetcher, fifo: Fifo, ly: byte, regs: Regs, mem: Memory): (SpriteFetcher, Fifo) {
    if s0.target == None then (s0, fifo)
    else
      var s := s0.(stepCycle := s0.stepCycle + 1);
      if s.stepCycle < 2 then (s, fifo)
      else
        match s.step
        case SpriteAddress =>
          (s.(tileAddress := SpriteTileAddress(s.target.value, ly, regs.tallObjects), step := SpriteDataLow,
            stepCycle := 0), fifo)
        case SpriteDataLow => (s.(low := mem[s.tileAddress], step := SpriteDataHigh, stepCycle := 0), fifo)
        case SpriteDataHigh =>
          var t := s.(extraDelay := Byte(s.extraDelay - 1));
          if s.extraDelay > 0 then (t, fifo)
          else (t.(target := None, step := SpriteAddress, stepCycle := 0),
                MergeRow(fifo, SpriteRow(s.target.value, s.low, mem[Word(s.tileAddress + 1)])))
  }

  // ---------------------------------------------------------------- sprite buffer

  /** Position of the first buffered object whose columns start at or before `x`, or the length. */
  function FirstAt(buffer: seq<Object>, x: nat): (k: nat)
    ensures k <= |buffer|
    ensures forall j :: 0 <= j < k ==> buffer[j].x - 8 > x
    ensures k < |buffer| ==> buffer[k].x - 8 <= x
  {
    if buffer == [] then 0
    else if buffer[0].x - 8 <= x then 0
    else 1 + FirstAt(buffer[1..], x)
  }

  // ---------------------------------------------------------------- one dot

  function WindowReached(p: Pipe, ly: byte, regs: Regs): bool {
    ly >= regs.wy && p.drawn >= regs.wx - 7
  }

  /** The window restarts the background fetch at most once a line. */
  function StartWindow(p: Pipe, ly: byte, regs: Regs): Pipe {
    if !p.windowActive && regs.windowEnabled && WindowReached(p, ly, regs) then
      p.(windowActive := true,
         windowLine := if ly == regs.wy then 0 else p.windowLine,
         bg := [], fetcher := ResetFetcher(p.fetcher), discard := 0,
         penalty := if regs.wx > 0 then 6 else 0)
    else p
  }

  /** An idle sprite fetcher claims the next buffered object that starts here. */
  function ClaimObject(p: Pipe, regs: Regs): Pipe {
    if regs.objectsEnabled && p.sprite.target == None then
      var k := FirstAt(p.buffer, p.drawn);
      if k < |p.buffer| then
        p.(buffer := p.buffer[..k] + p.buffer[k + 1..],
           sprite := SetTarget(p.sprite, p.buffer[k], p.windowActive, regs.scx))
      else p
    else p
  }

  function FetchBackground(p: Pipe, ly: byte, regs: Regs, mem: Memory): Pipe {
    var (f, bg) := TickFetcher(p.fetcher, p.bg, p.windowActive, p.windowLine, ly, regs, mem);
    p.(fetcher := f, bg := bg)
  }

  function FetchSprite(p: Pipe, ly: byte, regs: Regs, mem: Memory): Pipe {
    var (s, fifo) := TickSprite(p.sprite, p.objFifo, ly, regs, mem);
    p.(sprite := s, objFifo := fifo)
  }

  /** What reaches the screen when `bg` leaves the background FIFO. */
  function Emitted(bg: Pixel, objFifo: Fifo, regs: Regs): nat {
    var mixed := if objFifo == [] then bg else Mix(bg, objFifo[0], regs.bgEnabled, regs.objectsEnabled);
    Shade(mixed, regs.bgp, regs.obp0, regs.obp1)
  }

  function EmitPixel(p: Pipe, bg: Pixel, regs: Regs): Pipe
    requires p.drawn < LCD_WIDTH
  {
    p.(line := p.line[p.drawn := Emitted(bg, p.objFifo, regs)],
       objFifo := if p.objFifo == [] then [] else p.objFifo[1..],
       drawn := p.drawn + 1)
  }

  /** Pop a background pixel, to discard or to draw, and let the fetcher run on. */
  function Shift(p: Pipe, ly: byte, regs: Regs, mem: Memory): Pipe
    requires p.drawn < LCD_WIDTH
  {
    if p.bg == [] then FetchBackground(p, ly, regs, mem)
    else
      var q := p.(bg := p.bg[1..]);
      if p.discard > 0 then FetchBackground(q, ly, regs, mem).(discard := p.discard - 1)
      else FetchBackground(EmitPixel(q, p.bg[0], regs), ly, regs, mem)
  }

  /** With a sprite claimed or not, what the dot does once any window penalty is paid. */
  function Work(p: Pipe, ly: byte, regs: Regs, mem: Memory): Pipe
    requires p.drawn < LCD_WIDTH
  {
    if p.sprite.target != None then
      if p.fetcher.dot >= 6 || |p.bg| > 0 then FetchSprite(p, ly, regs, mem)
      else FetchBackground(p, ly, regs, mem)
    else Shift(p, ly, regs, mem)
  }

  /** One dot of mode 3. */
  function DrawDot(p: Pipe, ly: byte, regs: Regs, mem: Memory): Pipe
    requires p.drawn < LCD_WIDTH
  {
    var w := StartWindow(p, ly, regs);
    if w.penalty > 0 then w.(penalty := w.penalty - 1)
    else Work(ClaimObject(w, regs), ly, regs, mem)
  }

  /** Everything the end of OAM scan resets. */
  function StartDrawing(p: Pipe, scx: byte): Pipe {
    p.(fetcher := ResetFetcher(p.fetcher), bg := [],
       sprite := ResetSprite(p.sprite), objFifo := [],
       drawn := 0, discard := scx % 8)
  }
}
