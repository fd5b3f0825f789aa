/** The timer: a 16-bit divider whose falling edges clock an 8-bit counter with delayed reload. */
module Timer {
  import opened Common

  datatype Clock = Clock00 | Clock01 | Clock10 | Clock11

  const RELOAD_DELAY := 4

  /** Ticks between two counter increments: twice the value of the selected divider bit. */
  function Period(c: Clock): (p: nat)
    ensures p == 2 * ClockBit(c)
  {
    match c case Clock01 => 16 case Clock10 => 64 case Clock11 => 256 case Clock00 => 1024
  }

  function ClockBit(c: Clock): nat {
    match c case Clock01 => 8 case Clock10 => 32 case Clock11 => 128 case Clock00 => 512
  }

  datatype Timer = Timer(
    div: word, counter: byte, modulo: byte, enabled: bool, clock: Clock,
    overflow: bool, untilInterrupt: byte,
    tmaWindow: bool, windowLeft: byte,
    requests: nat)

  const RESET := Timer(0, 0, 0, false, Clock00, false, 0, false, 0, 0)

  /** The divider masked to the selected bit. */
  function MaskedBit(div: word, c: Clock): nat {
    if div / ClockBit(c) % 2 == 1 then ClockBit(c) else 0
  }

  // ---------------------------------------------------------------- announced batch

  function TicksToCounter(div: word, c: Clock): nat {
    Period(c) - 1 - div % Period(c) + 1
  }

  function TicksToDivider(div: word): nat {
    0xFF - div % 0x100 + 1
  }

  /** The smaller of one and the distance to the next edge of the selected bit. */
  function TicksToClockBit(div: word, c: Clock): nat {
    Min(1, ClockBit(c) - 1 - div % ClockBit(c) + 1)
  }

  function TickBatch(t: Timer): nat {
    Min(Min(if t.overflow then t.untilInterrupt else UNBOUNDED, TicksToClockBit(t.div, t.clock)),
        Min(TicksToDivider(t.div), if t.enabled then TicksToCounter(t.div, t.clock) else UNBOUNDED))
  }

  // ---------------------------------------------------------------- time

  /** The counter steps; passing 255 starts the delayed reload, anything else cancels one. */
  function StepCounter(t: Timer): Timer {
    t.(counter := Byte(t.counter + 1),
       overflow := t.counter == 0xFF,
       untilInterrupt := if t.counter == 0xFF then RELOAD_DELAY else 0)
  }

  /** The pending reload comes nearer; at its end the counter takes the modulo and a window opens. */
  function CountDown(t: Timer, k: nat): Timer {
    var until := t.untilInterrupt - Min(k, t.untilInterrupt);
    if until == 0 then
      t.(untilInterrupt := 0, counter := t.modulo, overflow := false,
         tmaWindow := true, windowLeft := RELOAD_DELAY, requests := t.requests + 1)
    else t.(untilInterrupt := until)
  }

  function Advance(t0: Timer, k: nat): Timer {
    var left := t0.windowLeft - Min(t0.windowLeft, k);
    var t := t0.(windowLeft := left, tmaWindow := left > 0, div := Word(t0.div + k));
    if t.overflow then CountDown(t, k)
    else if t.enabled && t0.div % Period(t.clock) + k > Period(t.clock) - 1 then StepCounter(t)
    else t
  }

  // ---------------------------------------------------------------- register writes

  datatype TimerWrite =
    | WriteDiv(div: word)
    | WriteTima(counter: byte)
    | WriteTma(modulo: byte)
    | WriteTac(enabled: bool, clock: Clock)

  function SetDivider(t: Timer, value: word): Timer {
    var u := t.(div := value);
    if t.enabled && MaskedBit(t.div, t.clock) > MaskedBit(value, t.clock) then StepCounter(u) else u
  }

  function SetCounter(t: Timer, value: byte): Timer {
    if t.overflow && t.untilInterrupt <= 4 then t.(counter := value, overflow := false, untilInterrupt := 0)
    else if !t.tmaWindow then t.(counter := value)
    else t
  }

  function SetModulo(t: Timer, value: byte): Timer {
    var u := t.(modulo := value);
    if t.tmaWindow then u.(counter := value) else u
  }

  /** Disabling while the clock bit is high steps the counter, with an immediate request on overflow. */
  function SetEnabled(t: Timer, value: bool): Timer {
    var u := t.(enabled := value);
    if t.enabled && !value && MaskedBit(t.div, t.clock) > 0 then
      u.(counter := Byte(t.counter + 1), requests := t.requests + if t.counter == 0xFF then 1 else 0)
    else u
  }

  /** The masked bits of the old and new clocks are compared as numbers. */
  function SetClock(t: Timer, value: Clock): Timer {
    var u := t.(clock := value);
    if t.enabled && MaskedBit(t.div, t.clock) > MaskedBit(t.div, value) then StepCounter(u) else u
  }

  function Apply(t: Timer, w: TimerWrite): Timer {
    match w
    case WriteDiv(div) => SetDivider(t, div)
    case WriteTima(counter) => SetCounter(t, counter)
    case WriteTma(modulo) => SetModulo(t, modulo)
    case WriteTac(enabled, clock) => SetClock(SetEnabled(t, enabled), clock)
  }

  // ---------------------------------------------------------------- invariant

  /** A reload is pending exactly while its countdown is 1..4, and likewise the window
      during which a modulo write also reaches the counter. */
  ghost predicate Inv(t: Timer) {
    && (t.overflow <==> 1 <= t.untilInterrupt <= RELOAD_DELAY)
    && t.untilInterrupt <= RELOAD_DELAY
    && (t.tmaWindow <==> 1 <= t.windowLeft <= RELOAD_DELAY)
    && t.windowLeft <= RELOAD_DELAY
  }

  datatype Action = Write(write: TimerWrite) | Pass(ticks: nat)

  ghost function Act(t: Timer, a: Action): Timer {
    match a
    case Write(w) => Apply(t, w)
    case Pass(k) => Advance(t, k)
  }

  ghost function Run(t: Timer, actions: seq<Action>): Timer {
    if actions == [] then t else Act(Run(t, actions[..|actions| - 1]), actions[|actions| - 1])
  }

  lemma ActInv(t: Timer, a: Action)
    requires Inv(t)
    ensures Inv(Act(t, a))
  {
  }

  /** Over every mix of register writes and batches of any size, the two flags agree with their
      countdowns and the announced batch is exactly one tick: never zero, never more. */
  lemma {:induction false} BatchAlwaysOne(actions: seq<Action>)
    ensures var t := Run(RESET, actions); Inv(t) && TickBatch(t) == 1
  {
    if actions != [] {
      BatchAlwaysOne(actions[..|actions| - 1]);
      ActInv(Run(RESET, actions[..|actions| - 1]), actions[|actions| - 1]);
    }
    BatchOne(Run(RESET, actions));
  }

  lemma BatchOne(t: Timer)
    requires Inv(t)
    ensures TickBatch(t) == 1
  {
    hide Period, ClockBit;
    ClockBounds(t.clock);
    assert t.div % Period(t.clock) < Period(t.clock) && t.div % ClockBit(t.clock) < ClockBit(t.clock);
  }

  lemma ClockBounds(c: Clock)
    ensures ClockBit(c) >= 8 && Period(c) >= 16
  {
  }

  // ---------------------------------------------------------------- batching

  /** How far a batch may reach: to the pending reload, or else to the next counter step. */
  ghost predicate WithinHorizon(t: Timer, k: nat) {
    if t.overflow then k <= t.untilInterrupt
    else t.enabled ==> k <= TicksToCounter(t.div, t.clock)
  }

  /** Single ticks, one after the other. */
  ghost function Ticks(t: Timer, n: nat): Timer {
    if n == 0 then t else Advance(Ticks(t, n - 1), 1)
  }

  /** Adding a multiple of `p` does not change a remainder by `p`. */
  lemma {:induction false} ModShift(x: int, p: nat, m: int)
    requires p > 0
    ensures (x + p * m) % p == x % p
    decreases if m < 0 then -m else m
  {
    if m > 0 {
      ModShift(x, p, m - 1);
      ModStep(x + p * (m - 1), p);
      assert x + p * m == x + p * (m - 1) + p;
    } else if m < 0 {
      ModShift(x, p, m + 1);
      ModStep(x + p * m, p);
      assert x + p * (m + 1) == x + p * m + p;
    }
  }

  lemma ModStep(x: int, p: nat)
    requires p > 0
    ensures (x + p) % p == x % p
  {
    var q := x / p;
    assert x == p * q + x % p;
    assert x + p == p * (q + 1) + x % p;
    Quotient(x + p, p, q + 1, x % p);
  }

  /** Divider wrap-around is invisible to the selected bit: the period divides 65536. */
  lemma WordMod(x: nat, c: Clock)
    ensures Word(x) % Period(c) == x % Period(c)
  {
    var q := x / 0x1_0000;
    var factor := match c case Clock01 => 4096 case Clock10 => 1024 case Clock11 => 256 case Clock00 => 64;
    assert 0x1_0000 * q == Period(c) * (factor * q) by {
      match c {
        case Clock01 => assert Period(c) == 16;
        case Clock10 => assert Period(c) == 64;
        case Clock11 => assert Period(c) == 256;
        case Clock00 => assert Period(c) == 1024;
      }
    }
    assert x == Word(x) + Period(c) * (factor * q);
    ModShift(Word(x), Period(c), factor * q);
  }

  lemma DividerMod(div: word, c: Clock, j: nat)
    requires div % Period(c) + j < Period(c)
    ensures Word(div + j) % Period(c) == div % Period(c) + j
  {
    WordMod(div + j, c);
    hide Period, Word;
    ClockBounds(c);
    var q := div / Period(c);
    assert div == Period(c) * q + div % Period(c);
    Quotient(div + j, Period(c), q, div % Period(c) + j);
  }

  lemma WordAdd(a: nat, j: nat, k: nat)
    ensures Word(Word(a + j) + k) == Word(a + (j + k))
  {
  }

  /** A batch inside the horizon may be cut anywhere: state, reload, windows and interrupt
      requests all come out the same. */
  lemma AdvanceSplit(t: Timer, j: nat, k: nat)
    requires Inv(t) && WithinHorizon(t, j + k)
    ensures Advance(t, j + k) == Advance(Advance(t, j), k)
  {
    WordAdd(t.div, j, k);
    ActInv(t, Pass(j));
    if k == 0 {
      AdvanceNothing(Advance(t, j));
    } else if !t.overflow && t.enabled {
      DividerMod(t.div, t.clock, j);
    }
    hide Period, ClockBit, Word;
  }

  /** A batch within the horizon is that many single ticks. */
  lemma {:induction false} AdvanceIsTicks(t: Timer, k: nat)
    requires Inv(t) && WithinHorizon(t, k)
    ensures Advance(t, k) == Ticks(t, k)
  {
    if k == 0 {
      AdvanceNothing(t);
    } else {
      AdvanceIsTicks(t, k - 1);
      AdvanceSplit(t, k - 1, 1);
    }
  }

  lemma AdvanceNothing(t: Timer)
    requires Inv(t)
    ensures Advance(t, 0) == t
  {
  }

  lemma {:induction false} TicksInv(t: Timer, n: nat)
    requires Inv(t)
    ensures Inv(Ticks(t, n))
  {
    if n > 0 {
      TicksInv(t, n - 1);
      ActInv(Ticks(t, n - 1), Pass(1));
    }
  }

  lemma {:induction false} TicksSplit(t: Timer, a: nat, b: nat)
    ensures Ticks(t, a + b) == Ticks(Ticks(t, a), b)
  {
    if b > 0 {
      TicksSplit(t, a, b - 1);
    }
  }
}
