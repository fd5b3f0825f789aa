/** What the timer's register writes mean for the ticks that follow them. */
module TimerWrites {
  import opened Common
  import opened Timer

  /** A counter write while a reload is pending calls it off: the written value stays, and nothing is
      requested, until the next counter step. */
  lemma ReloadCancelled(t: Timer, value: byte, n: nat)
    requires Inv(t) && t.overflow && (t.enabled ==> n < TicksToCounter(t.div, t.clock))
    ensures var u := Ticks(Apply(t, WriteTima(value)), n);
      u.counter == value && u.requests == t.requests && !u.overflow
  {
    var u := Apply(t, WriteTima(value));
    ActInv(t, Write(WriteTima(value)));
    AdvanceIsTicks(u, n);
    ClockBounds(t.clock);
    hide Period, ClockBit;
  }

  /** A modulo write while a reload is pending is the value reloaded, exactly when the countdown ends,
      with one request and a fresh window. */
  lemma ReloadTakesLatest(t: Timer, modulo: byte, n: nat)
    requires Inv(t) && t.overflow && n <= t.untilInterrupt
    ensures var u := Ticks(Apply(t, WriteTma(modulo)), n);
      if n < t.untilInterrupt then u.overflow && u.requests == t.requests
      else
        && u.counter == modulo && !u.overflow && u.requests == t.requests + 1
        && u.tmaWindow && u.windowLeft == RELOAD_DELAY
  {
    ActInv(t, Write(WriteTma(modulo)));
    AdvanceIsTicks(Apply(t, WriteTma(modulo)), n);
    hide Period, ClockBit;
  }

  /** The window after a reload is open for four ticks and no longer. */
  lemma {:induction false} WindowLastsFour(t: Timer, n: nat)
    requires Inv(t) && !t.overflow && t.windowLeft == RELOAD_DELAY && n <= RELOAD_DELAY
    ensures var u := Ticks(t, n);
      && u.windowLeft == RELOAD_DELAY - n && (u.tmaWindow <==> n < RELOAD_DELAY)
      && (u.overflow ==> u.untilInterrupt + n > RELOAD_DELAY)
  {
    hide Period, ClockBit;
    TicksInv(t, n);
    if n > 0 {
      WindowLastsFour(t, n - 1);
    }
  }

  lemma Reloaded(t: Timer)
    requires Inv(t) && t.overflow
    ensures Ticks(t, t.untilInterrupt) == t.(untilInterrupt := 0, counter := t.modulo, overflow := false,
      tmaWindow := true, windowLeft := RELOAD_DELAY, requests := t.requests + 1,
      div := Word(t.div + t.untilInterrupt))
  {
    AdvanceIsTicks(t, t.untilInterrupt);
  }

  /** For four ticks after a reload the counter belongs to the modulo register: a modulo write reaches
      it, a counter write does not. From then on, up to the next counter step, it is the other way
      round. */
  lemma WindowDecides(t: Timer, value: byte, n: nat)
    requires Inv(t) && t.overflow
    requires t.enabled ==> n < TicksToCounter(Word(t.div + t.untilInterrupt), t.clock)
    ensures var u := Ticks(t, t.untilInterrupt + n);
      && u.counter == t.modulo && u.requests == t.requests + 1
      && Apply(u, WriteTma(value)).counter == (if n < RELOAD_DELAY then value else t.modulo)
      && Apply(u, WriteTima(value)).counter == (if n < RELOAD_DELAY then t.modulo else value)
  {
    hide Period, ClockBit, Word;
    Reloaded(t);
    var reloaded := Ticks(t, t.untilInterrupt);
    ClockBounds(t.clock);
    TicksSplit(t, t.untilInterrupt, n);
    AdvanceIsTicks(reloaded, n);
  }

  /** Clearing the divider starts a new period: after the step its falling edge may make, the next one
      is exactly a period away. */
  lemma DividerCleared(t: Timer, n: nat)
    requires Inv(t) && t.enabled && !t.overflow && n <= Period(t.clock)
    requires var u := Apply(t, WriteDiv(0)); !u.overflow
    ensures var stepped := if MaskedBit(t.div, t.clock) > 0 then Byte(t.counter + 1) else t.counter;
      Ticks(Apply(t, WriteDiv(0)), n).counter == if n < Period(t.clock) then stepped else Byte(stepped + 1)
  {
    var u := Apply(t, WriteDiv(0));
    ActInv(t, Write(WriteDiv(0)));
    ClockBounds(t.clock);
    assert MaskedBit(0, t.clock) == 0;
    assert 0 % Period(t.clock) == 0;
    hide Period, ClockBit;
    AdvanceIsTicks(u, n);
  }
}
