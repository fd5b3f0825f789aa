/** The STAT interrupt over whole runs: one request for each rise of the combined line, and none else. */
module PpuStat {
  import opened Common
  import opened PpuPipe
  import opened PpuPipeTiming
  import opened Ppu
  import opened PpuTiming

  /** What can happen to the unit: a register write, or a tick. */
  datatype Action = Write(write: PpuWrite) | Pass(mem: Memory)

  ghost function Act(s: Ppu, a: Action): (t: Ppu)
    requires Inv(s)
    ensures Inv(t)
  {
    match a
    case Write(w) => ApplyInv(s, w); Apply(s, w)
    case Pass(mem) => DotInv(s, mem); Dot(s, mem)
  }

  ghost function RunActions(s: Ppu, actions: seq<Action>): (t: Ppu)
    requires Inv(s)
    ensures Inv(t)
  {
    if actions == [] then s else Act(RunActions(s, actions[..|actions| - 1]), actions[|actions| - 1])
  }

  ghost function RequestsIn(log: seq<Event>): nat {
    if log == [] then 0
    else RequestsIn(log[..|log| - 1]) + if log[|log| - 1] == StatInterrupt then 1 else 0
  }

  /** How often the line goes from low to high during a run. */
  ghost function Rises(s: Ppu, actions: seq<Action>): nat
    requires Inv(s)
  {
    if actions == [] then 0
    else
      var front := actions[..|actions| - 1];
      var before, after := RunActions(s, front), RunActions(s, actions);
      Rises(s, front) + if !before.statLine && after.statLine then 1 else 0
  }

  lemma RequestsSend(s: Ppu, e: Event)
    ensures RequestsIn(Send(s, e).log) == RequestsIn(s.log) + if e == StatInterrupt then 1 else 0
  {
    assert Send(s, e).log[..|s.log|] == s.log;
  }

  /** Where the line is looked at: at every change of mode or line, at writes of the compared line
      number and of the sources, and when the LCD is switched on. */
  ghost predicate Refreshes(s: Ppu, a: Action, t: Ppu) {
    match a
    case Write(WriteRegs(_)) => false
    case Write(WriteEnable(on)) => !s.enabled && on
    case Write(_) => s.enabled
    case Pass(_) => t.mode != s.mode || t.ly != s.ly
  }

  /** The line follows its condition where it is looked at, stays as it is elsewhere, and a request is
      made exactly when it rises. */
  ghost predicate StatKept(s: Ppu, a: Action, t: Ppu) {
    && t.statLine == (if Refreshes(s, a, t) then StatCondition(t) else s.statLine)
    && RequestsIn(t.log) == RequestsIn(s.log) + (if !s.statLine && t.statLine then 1 else 0)
  }

  /** A state that has just been looked at, coming from one whose line and requests it had. */
  lemma Looked(s: Ppu, u: Ppu)
    requires u.enabled && u.statLine == s.statLine && RequestsIn(u.log) == RequestsIn(s.log)
    ensures var t := UpdateStat(u);
      && t.statLine == StatCondition(t)
      && RequestsIn(t.log) == RequestsIn(s.log) + if !s.statLine && t.statLine then 1 else 0
  {
    ConditionAlone(u);
    RequestsSend(u.(statLine := StatCondition(u)), StatInterrupt);
    hide StatCondition, RequestsIn;
  }

  /** The condition does not depend on the line itself, nor on what was sent. */
  lemma ConditionAlone(s: Ppu)
    ensures StatCondition(UpdateStat(s)) == StatCondition(s)
  {
  }

  lemma RegisterStat(s: Ppu, w: PpuWrite)
    requires Inv(s)
    ensures StatKept(s, Write(w), Act(s, Write(w)))
  {
    hide RequestsIn, StatCondition;
    match w {
      case WriteRegs(_) =>
      case WriteLyc(lyc) => if s.enabled { Looked(s, s.(lyc := lyc)); }
      case WriteStat(sources) => if s.enabled { Looked(s, s.(sources := sources)); }
      case WriteEnable(on) => if on && !s.enabled { Looked(s, s.(enabled := true)); }
    }
  }

  lemma EndedLineQuiet(s: Ppu)
    ensures EndedLine(s).statLine == s.statLine && EndedLine(s).enabled == s.enabled
    ensures RequestsIn(EndedLine(s).log) == RequestsIn(s.log)
  {
    hide RequestsIn;
    var line := Send(s, Scanline(s.ly, s.pipe.line));
    RequestsSend(s, Scanline(s.ly, s.pipe.line));
    RequestsSend(line, EndFrame);
    RequestsSend(Send(line, EndFrame), VBlankInterrupt);
  }

  lemma BlankStat(s: Ppu, mem: Memory)
    requires Inv(s) && s.enabled && (s.mode == HBlank || s.mode == VBlank)
    ensures StatKept(s, Pass(mem), Dot(s, mem))
  {
    hide RequestsIn, UpdateStat, StatCondition, DrawDot, PipeInv, Measure, Floor;
    var c := s.(cycle := s.cycle + 1);
    if c.cycle == DOTS_PER_LINE {
      if s.mode == HBlank {
        EndedLineQuiet(c);
        Looked(s, EndedLine(c));
        StatOnly(EndedLine(c));
      } else {
        Looked(s, EndedBlankLine(c));
        StatOnly(EndedBlankLine(c));
      }
    }
  }

  lemma ScanStat(s: Ppu, mem: Memory)
    requires Inv(s) && s.enabled && s.mode == OamScan
    ensures StatKept(s, Pass(mem), Dot(s, mem))
  {
    hide RequestsIn, UpdateStat, StatCondition, StartDrawing, ScanDot;
    var t := ScanDots(s, mem, 1);
    ScanDotsKeep(s, mem, 1);
    if t.cycle == SCAN_DOTS {
      var u := t.(initialAfterOn := false, mode := Drawing, pipe := StartDrawing(t.pipe, t.regs.scx));
      Looked(s, u);
      StatOnly(u);
    }
  }

  lemma DrawingStat(s: Ppu, mem: Memory)
    requires Inv(s) && s.enabled && s.mode == Drawing
    ensures StatKept(s, Pass(mem), Dot(s, mem))
  {
    hide RequestsIn, UpdateStat, StatCondition, DrawDot, PipeInv, Measure, Floor;
    InvCanStep(s);
    var u := s.(cycle := s.cycle + 1, pipe := DrawDot(s.pipe, s.ly, s.regs, mem));
    if u.pipe.drawn == LCD_WIDTH {
      Looked(s, u.(mode := HBlank));
      StatOnly(u.(mode := HBlank));
    }
  }

  lemma ActStat(s: Ppu, a: Action)
    requires Inv(s)
    ensures StatKept(s, a, Act(s, a))
  {
    hide StatKept, Dot;
    match a {
      case Write(w) => RegisterStat(s, w);
      case Pass(mem) =>
        if !s.enabled {
          OffStat(s, mem);
        } else {
          match s.mode {
            case OamScan => ScanStat(s, mem);
            case Drawing => DrawingStat(s, mem);
            case _ => BlankStat(s, mem);
          }
        }
    }
  }

  lemma OffStat(s: Ppu, mem: Memory)
    requires Inv(s) && !s.enabled
    ensures StatKept(s, Pass(mem), Dot(s, mem))
  {
  }

  /** Over every run of register writes, LCD switching and ticks, the STAT requests made are the rises
      of the line, one for one. */
  lemma {:induction false} RequestsAreRises(s: Ppu, actions: seq<Action>)
    requires Inv(s)
    ensures RequestsIn(RunActions(s, actions).log) == RequestsIn(s.log) + Rises(s, actions)
  {
    hide Inv, Act, RequestsIn;
    if actions != [] {
      var front := actions[..|actions| - 1];
      RequestsAreRises(s, front);
      ActStat(RunActions(s, front), actions[|actions| - 1]);
    }
  }
}
