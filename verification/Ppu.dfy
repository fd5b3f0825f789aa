/** The pixel processing unit as a state machine over whole scanlines: OAM scan, drawing,
    horizontal and vertical blank, with the STAT line and what is sent to the screen. */
module Ppu {
  import opened Common
  import opened Pixels
  import opened PpuPipe

  const DOTS_PER_LINE := 456
  const SCAN_DOTS := 80
  const VISIBLE_LINES := 144
  const TOTAL_LINES := 154
  const OAM_START := 0xFE00
  const OAM_OBJECTS := 40

  datatype Mode = HBlank | VBlank | OamScan | Drawing

  datatype StatSources = StatSources(lycSelect: bool, mode2: bool, mode1: bool, mode0: bool)

  /** What the unit does to the screen and to the interrupt controller, in order. */
  datatype Event =
    | StatInterrupt
    | VBlankInterrupt
    | Scanline(ly: nat, line: LineBuffer)
    | EndFrame

  datatype Ppu = Ppu(
    enabled: bool, mode: Mode, ly: nat, cycle: nat,
    lyc: byte, sources: StatSources, statLine: bool,
    initialAfterOn: bool, latchedLyc: bool,
    regs: Regs, pipe: Pipe, log: seq<Event>)

  /** The line number the CPU sees; it already shows the next line at the end of h-blank. */
  function VisibleLy(s: Ppu): nat {
    if s.mode == HBlank && s.cycle >= 452 then (s.ly + 1) % 0x100 else s.ly
  }

  function StatCondition(s: Ppu): bool {
    || (VisibleLy(s) == s.lyc && s.sources.lycSelect)
    || (s.mode == HBlank && s.sources.mode0)
    || (s.mode == VBlank && s.sources.mode1)
    || ((s.mode == OamScan || s.ly == VISIBLE_LINES) && s.sources.mode2)
  }

  function Send(s: Ppu, e: Event): Ppu {
    s.(log := s.log + [e])
  }

  /** A STAT interrupt is requested on the rising edge of the combined condition only. */
  function UpdateStat(s: Ppu): Ppu {
    if !s.enabled then s
    else
      var t := s.(statLine := StatCondition(s));
      if !s.statLine && StatCondition(s) then Send(t, StatInterrupt) else t
  }

  // ---------------------------------------------------------------- register writes

  /** CPU writes; `WriteRegs` covers every register that is only stored. */
  datatype PpuWrite =
    | WriteRegs(regs: Regs)
    | WriteLyc(lyc: byte)
    | WriteStat(sources: StatSources)
    | WriteEnable(on: bool)

  function SetEnabled(s: Ppu, on: bool): Ppu {
    if s.enabled && !on then
      s.(enabled := false,
         latchedLyc := s.lyc == s.ly,
         ly := 0, cycle := 2, initialAfterOn := true, mode := OamScan,
         pipe := s.pipe.(windowLine := 0, penalty := 0, windowActive := false,
                         drawn := 0, discard := 0, bg := [], fetcher := ResetFetcher(s.pipe.fetcher)))
    else if !s.enabled && on then UpdateStat(s.(enabled := true))
    else s
  }

  function Apply(s: Ppu, w: PpuWrite): Ppu {
    match w
    case WriteRegs(regs) => s.(regs := regs)
    case WriteLyc(lyc) => UpdateStat(s.(lyc := lyc))
    case WriteStat(sources) => UpdateStat(s.(sources := sources))
    case WriteEnable(on) => SetEnabled(s, on)
  }

  // ---------------------------------------------------------------- OAM scan

  function GetObject(index: nat, mem: Memory): Object
    requires index < OAM_OBJECTS
  {
    var base := OAM_START + index * 4;
    var flags := mem[base + 3];
    Object(index, mem[base + 1], mem[base], mem[base + 2],
           Bit(flags, 7) == 1, Bit(flags, 5) == 1, Bit(flags, 6) == 1, Bit(flags, 4) == 1)
  }

  function ObjectHeight(tall: bool): nat {
    if tall then 16 else 8
  }

  function InScanline(o: Object, height: nat, ly: nat): bool {
    o.y - 16 <= ly < o.y - 16 + height
  }

  /** One dot of the scan: a new object is looked at on every even dot. */
  function ScanDot(s: Ppu, mem: Memory): Ppu
    requires s.cycle < SCAN_DOTS
  {
    var t := s.(cycle := s.cycle + 1);
    if s.cycle % 2 != 0 then t
    else
      var candidate := GetObject(t.cycle / 2, mem);
      if InScanline(candidate, ObjectHeight(s.regs.tallObjects), s.ly) && |s.pipe.buffer| < MAX_OBJECTS_PER_LINE
      then t.(pipe := s.pipe.(buffer := s.pipe.buffer + [candidate]))
      else t
  }

  function ScanDots(s: Ppu, mem: Memory, k: nat): Ppu
    requires s.cycle + k <= SCAN_DOTS
    decreases k
  {
    if k == 0 then s
    else
      var t := ScanDot(s, mem);
      assert t.cycle == s.cycle + 1;
      ScanDots(t, mem, k - 1)
  }

  function FinishScan(s: Ppu): Ppu {
    if s.cycle >= SCAN_DOTS then
      UpdateStat(s.(initialAfterOn := false, mode := Drawing, pipe := StartDrawing(s.pipe, s.regs.scx)))
    else s
  }

  // ---------------------------------------------------------------- the other modes

  function DrawingDot(s: Ppu, mem: Memory): Ppu
    requires s.pipe.drawn < LCD_WIDTH && s.ly < 0x100
  {
    var t := s.(cycle := s.cycle + 1, pipe := DrawDot(s.pipe, s.ly, s.regs, mem));
    if t.pipe.drawn == LCD_WIDTH then UpdateStat(t.(mode := HBlank)) else t
  }

  /** The end of a drawn line: hand it to the screen and move to the next line. */
  function EndedLine(s: Ppu): Ppu {
    var t := Send(s, Scanline(s.ly, s.pipe.line)).(cycle := 0, ly := (s.ly + 1) % 0x100);
    var p := if s.pipe.windowActive
      then s.pipe.(windowActive := false, windowLine := Byte(s.pipe.windowLine + 1))
      else s.pipe;
    if t.ly <= 143 then t.(pipe := p.(buffer := []), mode := OamScan)
    else Send(Send(t.(pipe := p, mode := VBlank), EndFrame), VBlankInterrupt)
  }

  function EndLine(s: Ppu): Ppu {
    UpdateStat(EndedLine(s))
  }

  function HBlankDots(s: Ppu, k: nat): Ppu {
    var t := s.(cycle := s.cycle + k);
    if t.cycle >= DOTS_PER_LINE then EndLine(t) else t
  }

  function EndedBlankLine(s: Ppu): Ppu {
    var t := s.(cycle := 0, ly := (s.ly + 1) % 0x100);
    if t.ly > 153 then t.(ly := 0, pipe := t.pipe.(buffer := []), mode := OamScan) else t
  }

  function EndBlankLine(s: Ppu): Ppu {
    UpdateStat(EndedBlankLine(s))
  }

  function VBlankDots(s: Ppu, k: nat): Ppu {
    var t := s.(cycle := s.cycle + k);
    if t.cycle >= DOTS_PER_LINE then EndBlankLine(t) else t
  }

  // ---------------------------------------------------------------- steps

  /** The number of ticks the unit announces to the scheduler, in unsigned 32-bit arithmetic. */
  function TickBatch(s: Ppu): nat {
    if !s.enabled then UNBOUNDED
    else match s.mode
      case HBlank => (DOTS_PER_LINE - s.cycle) % 0x1_0000_0000
      case VBlank => (DOTS_PER_LINE - s.cycle) % 0x1_0000_0000
      case OamScan => (SCAN_DOTS - s.cycle) % 0x1_0000_0000
      case Drawing => 1
  }

  /** What the code relies on to make one more step in each mode. */
  ghost predicate CanStep(s: Ppu) {
    && s.ly < 0x100
    && (s.mode == OamScan ==> s.cycle < SCAN_DOTS)
    && (s.mode == Drawing ==> s.pipe.drawn < LCD_WIDTH)
    && (s.mode == HBlank || s.mode == VBlank ==> s.cycle < DOTS_PER_LINE)
  }

  /** One step of the unit over `k` ticks, `k` being within the announced batch. */
  function Step(s: Ppu, mem: Memory, k: nat): Ppu
    requires CanStep(s) && s.enabled && 1 <= k <= TickBatch(s)
  {
    match s.mode
    case HBlank => HBlankDots(s, k)
    case VBlank => VBlankDots(s, k)
    case OamScan => FinishScan(ScanDots(s, mem, k))
    case Drawing => DrawingDot(s, mem)
  }

  /** The unit's behaviour over a single tick. */
  function Dot(s: Ppu, mem: Memory): Ppu
    requires CanStep(s)
  {
    if s.enabled then Step(s, mem, 1) else s
  }
}
