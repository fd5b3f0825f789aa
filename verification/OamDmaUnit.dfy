/** The OAM DMA engine as the program has it, ticked in batches and copying through memory. */
module OamDmaUnit {
  import opened Common
  import opened OamDma
  import opened AddressSpace

  class OamDmaEngine {
    var currentState: Phase
    var remainingTicksToTransferStep: nat
    var remainingTicksToStartNewTransfer: nat
    var currentByte: byte
    var activeStart: word
    var lastWrittenStart: word

    ghost function State(): Dma
      reads this
    {
      Dma(currentState, remainingTicksToTransferStep, remainingTicksToStartNewTransfer,
          currentByte, activeStart, lastWrittenStart)
    }

    constructor ()
      ensures State() == Dma(Inactive, 0, 0, 0, 0, 0) && Inv(State())
    {
      currentState := Inactive;
      remainingTicksToTransferStep, remainingTicksToStartNewTransfer := 0, 0;
      currentByte, activeStart, lastWrittenStart := 0, 0, 0;
    }

    method BeginTransfer(startAddress: word)
      modifies this
      ensures State() == StartTransfer(old(State()), startAddress)
    {
      lastWrittenStart := startAddress;
      currentState := if currentState == Active then Restarting else Starting;
      remainingTicksToStartNewTransfer := 4;
    }

    method NextBatch() returns (ticks: nat)
      ensures ticks == TickBatch(State())
    {
      match currentState {
        case Starting => ticks := remainingTicksToStartNewTransfer;
        case Restarting => ticks := Min(remainingTicksToStartNewTransfer, remainingTicksToTransferStep);
        case Active => ticks := remainingTicksToTransferStep;
        case Inactive => ticks := UNBOUNDED;
      }
    }

    method TakeOver()
      modifies this
      ensures State() == Activate(old(State()))
    {
      currentState := Active;
      currentByte := 0;
      activeStart := lastWrittenStart;
      remainingTicksToTransferStep := 8;
    }

    method ExecuteTransferStep(memory: AddressSpace)
      modifies memory, this`currentByte
      ensures memory.bytes == TransferByte(old(memory.bytes), activeStart, old(currentByte))
      ensures currentByte == Byte(old(currentByte) + 1)
    {
      var rawSource := Word(activeStart + currentByte);
      var source: word := if rawSource >= 0xE000 then rawSource - 0x2000 else rawSource;
      var value := memory.Read(source);
      memory.Write(Word(OAM_BASE + currentByte), value);
      currentByte := Byte(currentByte + 1);
    }

    method HandleStarting(numTicks: nat) returns (consumed: nat)
      modifies this
      ensures consumed == Min(numTicks, old(remainingTicksToStartNewTransfer))
      ensures State() == StartingTicks(old(State()), consumed)
    {
      consumed := Min(numTicks, remainingTicksToStartNewTransfer);
      remainingTicksToStartNewTransfer := remainingTicksToStartNewTransfer - consumed;
      if remainingTicksToStartNewTransfer == 0 {
        TakeOver();
      }
    }

    method HandleRestarting(numTicks: nat, memory: AddressSpace) returns (consumed: nat)
      modifies this, memory
      ensures consumed == Min(numTicks, Min(old(remainingTicksToStartNewTransfer), old(remainingTicksToTransferStep)))
      ensures (State(), memory.bytes) == RestartingTicks(old(State()), old(memory.bytes), consumed)
    {
      hide TransferByte, Activate;
      consumed := Min(numTicks, Min(remainingTicksToStartNewTransfer, remainingTicksToTransferStep));
      remainingTicksToStartNewTransfer := remainingTicksToStartNewTransfer - consumed;
      remainingTicksToTransferStep := remainingTicksToTransferStep - consumed;
      if remainingTicksToTransferStep == 0 {
        ExecuteTransferStep(memory);
        remainingTicksToTransferStep := 4;
      }
      if remainingTicksToStartNewTransfer == 0 {
        TakeOver();
      }
    }

    /** Runs through as many bytes as the ticks allow; ticks left over after the last byte are dropped. */
    method HandleActive(numTicks: nat, memory: AddressSpace) returns (consumed: nat)
      requires Inv(State()) && currentState == Active
      modifies this, memory
      ensures consumed == numTicks
      ensures Inv(State())
      ensures (State(), memory.bytes) == Ticks(old(State()), old(memory.bytes), numTicks)
    {
      ghost var d, m := State(), memory.bytes;
      var ticksToConsume := numTicks;
      TicksNothing(d, m);
      while currentState == Active && ticksToConsume > 0
        invariant 0 <= ticksToConsume <= numTicks
        invariant Inv(State()) && (currentState == Active || currentState == Inactive)
        invariant (State(), memory.bytes) == Ticks(d, m, numTicks - ticksToConsume)
        decreases ticksToConsume
      {
        ghost var d0, m0 := State(), memory.bytes;
        var nextStep := Min(ticksToConsume, remainingTicksToTransferStep);
        ActiveIsTicks(d0, m0, nextStep);
        TicksSplit(d, m, numTicks - ticksToConsume, nextStep);
        ActiveKeeps(d0, m0, nextStep);
        NextBytes(nextStep, memory);
        ticksToConsume := ticksToConsume - nextStep;
      }
      if currentState == Inactive {
        IdleTicks(State(), memory.bytes, ticksToConsume);
        TicksSplit(d, m, numTicks - ticksToConsume, ticksToConsume);
      }
      consumed := numTicks;
    }

    method NextBytes(nextStep: nat, memory: AddressSpace)
      requires nextStep <= remainingTicksToTransferStep && currentState == Active
      modifies this, memory
      ensures (State(), memory.bytes) == ActiveTicks(old(State()), old(memory.bytes), nextStep)
    {
      hide TransferByte;
      remainingTicksToTransferStep := remainingTicksToTransferStep - nextStep;
      if remainingTicksToTransferStep == 0 {
        ExecuteTransferStep(memory);
        var isDone := currentByte >= OAM_SIZE;
        currentState := if isDone then Inactive else Active;
        remainingTicksToTransferStep := 4;
      }
    }

    /** However the ticks of a transfer are split into calls and batches, the engine takes them
        one by one. The scheduler ticks it only while a transfer is under way. */
    method TickTransfer(numTicks: nat, memory: AddressSpace)
      requires Inv(State()) && currentState != Inactive
      modifies this, memory
      ensures Inv(State())
      ensures (State(), memory.bytes) == Ticks(old(State()), old(memory.bytes), numTicks)
    {
      ghost var d, m := State(), memory.bytes;
      var remaining := numTicks;
      TicksNothing(d, m);
      while remaining > 0
        invariant 0 <= remaining <= numTicks
        invariant Inv(State()) && (remaining > 0 ==> currentState != Inactive)
        invariant (State(), memory.bytes) == Ticks(d, m, numTicks - remaining)
      {
        ghost var d0, m0 := State(), memory.bytes;
        ghost var done := numTicks - remaining;
        var consumed;
        match currentState {
          case Starting =>
            StartingIsTicks(d0, m0, Min(remaining, d0.startLeft));
            consumed := HandleStarting(remaining);
          case Restarting =>
            RestartingIsTicks(d0, m0, Min(remaining, Min(d0.startLeft, d0.stepLeft)));
            consumed := HandleRestarting(remaining, memory);
          case Active => consumed := HandleActive(remaining, memory);
        }
        TicksSplit(d, m, done, consumed);
        remaining := remaining - consumed;
      }
    }
  }

  lemma TicksNothing(d: Dma, mem: Memory)
    requires Inv(d)
    ensures Ticks(d, mem, 0) == (d, mem)
  {
  }

  lemma ActiveKeeps(d: Dma, mem: Memory, k: nat)
    requires Inv(d) && d.phase == Active && 0 < k <= d.stepLeft
    ensures var e := ActiveTicks(d, mem, k).0; Inv(e) && (e.phase == Active || e.phase == Inactive)
  {
  }

  lemma {:induction false} IdleTicks(d: Dma, mem: Memory, n: nat)
    requires Inv(d) && d.phase == Inactive
    ensures Ticks(d, mem, n) == (d, mem)
    decreases n
  {
    if n > 0 {
      IdleTicks(d, mem, n - 1);
    }
  }
}
