/** The timer as the program has it: registers and countdowns updated in place, ticked in
    batches. Every method is tied to the timer's state machine. */
module TimerUnit {
  import opened Common
  import opened Timer

  class TimerSystem {
    var divider: word
    var counter: byte
    var modulo: byte
    var controlEnabled: bool
    var controlClock: Clock
    var overflowDetected: bool
    var ticksUntilInterrupt: byte
    var tmaOverwritePerformedThisCycle: bool
    var remainingTicksInTmaOverwriteCycle: byte

    /** How often the timer interrupt has been requested. */
    var interruptRequests: nat

    ghost function State(): Timer
      reads this
    {
      Timer(divider, counter, modulo, controlEnabled, controlClock, overflowDetected, ticksUntilInterrupt,
            tmaOverwritePerformedThisCycle, remainingTicksInTmaOverwriteCycle, interruptRequests)
    }

    constructor ()
      ensures State() == RESET && Inv(State())
    {
      divider, counter, modulo := 0, 0, 0;
      controlEnabled, controlClock := false, Clock00;
      overflowDetected, ticksUntilInterrupt := false, 0;
      tmaOverwritePerformedThisCycle, remainingTicksInTmaOverwriteCycle := false, 0;
      interruptRequests := 0;
    }

    method TickCounter() returns (overflow: bool)
      modifies this`counter
      ensures counter == Byte(old(counter) + 1) && overflow == (old(counter) == 0xFF)
    {
      overflow := Byte(counter + 1) < counter;
      counter := Byte(counter + 1);
    }

    method StepOnFallingEdge()
      modifies this`counter, this`overflowDetected, this`ticksUntilInterrupt
      ensures State() == StepCounter(old(State()))
    {
      overflowDetected := TickCounter();
      ticksUntilInterrupt := if overflowDetected then 4 else 0;
    }

    method WriteDivider(value: word)
      modifies this
      ensures State() == Apply(old(State()), WriteDiv(value))
    {
      var previous := divider;
      divider := value;
      if controlEnabled && MaskedBit(previous, controlClock) > MaskedBit(divider, controlClock) {
        StepOnFallingEdge();
      }
    }

    method WriteCounter(value: byte)
      modifies this
      ensures State() == Apply(old(State()), WriteTima(value))
    {
      if overflowDetected && ticksUntilInterrupt <= 4 {
        counter := value;
        overflowDetected := false;
        ticksUntilInterrupt := 0;
      } else if !tmaOverwritePerformedThisCycle {
        counter := value;
      }
    }

    method WriteModulo(value: byte)
      modifies this
      ensures State() == Apply(old(State()), WriteTma(value))
    {
      modulo := value;
      if tmaOverwritePerformedThisCycle {
        counter := value;
      }
    }

    method SetControlEnabled(value: bool)
      modifies this
      ensures State() == SetEnabled(old(State()), value)
    {
      var wasEnabled := controlEnabled;
      controlEnabled := value;
      if wasEnabled && !value && MaskedBit(divider, controlClock) > 0 {
        var overflow := TickCounter();
        if overflow {
          interruptRequests := interruptRequests + 1;
        }
      }
    }

    method SetControlClock(value: Clock)
      modifies this
      ensures State() == SetClock(old(State()), value)
    {
      var previous := controlClock;
      controlClock := value;
      if controlEnabled && MaskedBit(divider, previous) > MaskedBit(divider, controlClock) {
        StepOnFallingEdge();
      }
    }

    method WriteControl(enabled: bool, clock: Clock)
      modifies this
      ensures State() == Apply(old(State()), WriteTac(enabled, clock))
    {
      SetControlEnabled(enabled);
      SetControlClock(clock);
    }

    method NextBatch() returns (ticks: nat)
      ensures ticks == TickBatch(State())
    {
      var untilInterrupt := if overflowDetected then ticksUntilInterrupt else UNBOUNDED;
      var untilDivider := TicksToDivider(divider);
      var untilBit := TicksToClockBit(divider, controlClock);
      var untilCounter := if controlEnabled then TicksToCounter(divider, controlClock) else UNBOUNDED;
      ticks := Min(Min(untilInterrupt, untilBit), Min(untilDivider, untilCounter));
    }

    method CountDownReload(batch: nat)
      requires overflowDetected
      modifies this
      ensures State() == CountDown(old(State()), batch)
    {
      ticksUntilInterrupt := ticksUntilInterrupt - Min(batch, ticksUntilInterrupt);
      if ticksUntilInterrupt == 0 {
        counter := modulo;
        overflowDetected := false;
        tmaOverwritePerformedThisCycle := true;
        remainingTicksInTmaOverwriteCycle := 4;
        interruptRequests := interruptRequests + 1;
      }
    }

    method Progress(batch: nat)
      modifies this
      ensures State() == Advance(old(State()), batch)
    {
      hide Period, StepCounter, CountDown;
      remainingTicksInTmaOverwriteCycle :=
        remainingTicksInTmaOverwriteCycle - Min(remainingTicksInTmaOverwriteCycle, batch);
      tmaOverwritePerformedThisCycle := remainingTicksInTmaOverwriteCycle > 0;

      if overflowDetected {
        divider := Word(divider + batch);
        CountDownReload(batch);
        return;
      }

      if !controlEnabled {
        divider := Word(divider + batch);
        return;
      }

      var lower := divider % Period(controlClock);
      var fallingEdge := lower + batch > Period(controlClock) - 1;
      divider := Word(divider + batch);
      if fallingEdge {
        StepOnFallingEdge();
      }
    }

    /** However the ticks are batched, the timer goes through them one by one. */
    method Tick(numTicks: nat)
      requires Inv(State())
      modifies this
      ensures Inv(State()) && State() == Ticks(old(State()), numTicks)
    {
      ghost var start := State();
      var remaining := numTicks;
      while remaining > 0
        invariant 0 <= remaining <= numTicks
        invariant Inv(State()) && State() == Ticks(start, numTicks - remaining)
      {
        ghost var before := State();
        BatchOne(before);
        ActInv(before, Pass(1));
        var batch := NextBatch();
        batch := Min(remaining, batch);
        Progress(batch);
        remaining := remaining - batch;
      }
    }
  }
}
