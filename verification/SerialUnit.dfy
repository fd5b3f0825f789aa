/** The serial link as the program has it: its fields change in place, one bit at a time. */
module SerialUnit {
  import opened Common
  import opened Serial
  import Wire = Serial

  class SerialLink {
    const peer: Peer

    var transferData: byte
    var transferEnabled: bool
    var master: bool
    var numBitsTransferred: byte
    var cycleAccumulator: nat

    /** The wires and the interrupt line. */
    var sent: seq<nat>
    var received: seq<nat>
    var interruptRequests: nat

    ghost function State(): Link
      reads this
    {
      Link(transferData, transferEnabled, master, numBitsTransferred, cycleAccumulator, sent, received,
        interruptRequests)
    }

    constructor (peer: Peer)
      ensures this.peer == peer && Inv(State()) && !Active(State())
    {
      this.peer := peer;
      transferData, transferEnabled, master := 0, false, false;
      numBitsTransferred, cycleAccumulator := 0, 0;
      sent, received, interruptRequests := [], [], 0;
    }

    method NextBatch() returns (ticks: nat)
      requires Inv(State())
      ensures ticks == TickBatch(State()) >= BIT_TICKS
    {
      if !(transferEnabled && master) {
        return UNBOUNDED;
      }
      ticks := (8 - numBitsTransferred) * BIT_TICKS;
    }

    method TransferOneBit()
      requires numBitsTransferred < 8
      modifies this
      ensures State() == TransferBit(old(State()), peer)
    {
      var sentBit := transferData / 128;
      sent := sent + [sentBit];
      var receivedBit := peer(sent) % 2;
      received := received + [receivedBit];
      transferData := Byte(transferData * 2 + receivedBit);
      numBitsTransferred := numBitsTransferred + 1;
      if numBitsTransferred >= 8 {
        transferEnabled := false;
        numBitsTransferred := 0;
        interruptRequests := interruptRequests + 1;
      }
    }

    method Tick(numTicks: nat)
      requires Inv(State())
      modifies this
      ensures State() == Ticks(old(State()), peer, numTicks) && Inv(State())
    {
      HorizonPositive(State(), peer, numTicks, WriteData(0));
      hide TransferBit, Drain, TickBatch, Bits;
      if !(transferEnabled && master) {
        return;
      }
      cycleAccumulator := cycleAccumulator + numTicks;
      DrainInPlace();
    }

    /** The loop of `Tick`: whole bits out of the accumulator. */
    method DrainInPlace()
      requires numBitsTransferred < 8
      modifies this
      ensures State() == Drain(old(State()), peer)
    {
      hide TransferBit, Drain;
      ghost var start := State();
      while cycleAccumulator >= BIT_TICKS
        invariant numBitsTransferred < 8 && Drain(State(), peer) == Drain(start, peer)
      {
        DrainUnfolds(State(), peer);
        cycleAccumulator := cycleAccumulator - BIT_TICKS;
        TransferOneBit();
      }
      DrainUnfolds(State(), peer);
    }

    method ExternalTick()
      requires Inv(State())
      modifies this
      ensures State() == Wire.ExternalTick(old(State()), peer)
    {
      if transferEnabled && !master {
        TransferOneBit();
      }
    }
  }
}
