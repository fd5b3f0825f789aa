/** An OAM transfer while the program keeps running: each byte is copied as it is at its own step. */
module OamDmaLive {
  import opened Common
  import opened OamDma

  /** What the rest of the machine makes of memory before each tick. */
  type Program = (nat, Memory) -> Memory

  ghost predicate KeepsOam(program: Program) {
    forall t: nat, mem: Memory, i: nat :: i < OAM_SIZE ==> OamByte(program(t, mem), i) == OamByte(mem, i)
  }

  /** `n` ticks from tick `t` on, the program going first in each. */
  ghost function LiveTicks(d: Dma, mem: Memory, program: Program, t: nat, n: nat): (r: (Dma, Memory))
    requires Inv(d)
    ensures Inv(r.0)
    decreases n
  {
    if n == 0 then (d, mem)
    else
      var seen := program(t, mem);
      TickInv(d, seen);
      var (e, m) := Tick(d, seen);
      LiveTicks(e, m, program, t + 1, n - 1)
  }

  /** Memory as the engine sees it once `j` ticks have gone by. */
  ghost function Seen(d: Dma, mem: Memory, program: Program, t: nat, j: nat): Memory
    requires Inv(d)
  {
    program(t + j, LiveTicks(d, mem, program, t, j).1)
  }

  /** What happens when depends on the countdowns alone. */
  lemma {:induction false} SamePhases(d: Dma, mem: Memory, program: Program, t: nat, n: nat, still: Memory)
    requires Inv(d)
    ensures LiveTicks(d, mem, program, t, n).0 == Ticks(d, still, n).0
    decreases n
  {
    hide Inv, Tick;
    if n > 0 {
      var seen := program(t, mem);
      TickInv(d, seen);
      TickInv(d, still);
      CountdownsAlone(d, seen, still);
      SamePhases(Tick(d, seen).0, Tick(d, seen).1, program, t + 1, n - 1, Tick(d, still).1);
    }
  }

  lemma CountdownsAlone(d: Dma, mem: Memory, other: Memory)
    requires Inv(d)
    ensures Tick(d, mem).0 == Tick(d, other).0
  {
    hide TransferByte;
  }

  lemma {:induction false} LiveSplit(d: Dma, mem: Memory, program: Program, t: nat, a: nat, b: nat)
    requires Inv(d)
    ensures var (e, m) := LiveTicks(d, mem, program, t, a);
      LiveTicks(d, mem, program, t, a + b) == LiveTicks(e, m, program, t + a, b)
    decreases a
  {
    hide Inv, Tick;
    if a > 0 {
      var seen := program(t, mem);
      TickInv(d, seen);
      LiveSplit(Tick(d, seen).0, Tick(d, seen).1, program, t + 1, a - 1, b);
    }
  }

  /** In each tick the engine changes object memory only, whatever phase it is in. */
  lemma LiveWritesOam(d: Dma, mem: Memory, program: Program, t: nat, n: nat)
    requires Inv(d)
    ensures OnlyOamDiffers(Seen(d, mem, program, t, n), LiveTicks(d, mem, program, t, n + 1).1)
  {
    hide Inv, Tick, LiveTicks, OnlyOamDiffers;
    LiveSplit(d, mem, program, t, n, 1);
    var (e, m) := LiveTicks(d, mem, program, t, n);
    LiveUnfolds(e, m, program, t + n, 1);
    var (f, last) := Tick(e, program(t + n, m));
    LiveUnfolds(f, last, program, t + n + 1, 0);
    TickInv(e, program(t + n, m));
  }

  /** Ticks left of an active transfer. */
  function TicksLeft(d: Dma): int {
    d.stepLeft + NEXT_STEP * (OAM_SIZE - 1 - d.current)
  }

  /** Ticks that pass before the one that copies byte `i`. */
  function CopyTick(d: Dma, i: int): int {
    d.stepLeft - 1 + NEXT_STEP * (i - d.current)
  }

  /** Each remaining byte is what its source held in its own tick; those already copied stay. */
  ghost predicate CopiedLive(d: Dma, mem: Memory, program: Program, t: nat, after: Memory)
    requires Inv(d) && d.phase == Active
  {
    && (forall i :: d.current <= i < OAM_SIZE ==>
         OamByte(after, i) == Seen(d, mem, program, t, CopyTick(d, i))[SourceAddress(d.activeStart, i)])
    && (forall i :: 0 <= i < d.current ==> OamByte(after, i) == OamByte(mem, i))
  }

  lemma ActiveTick(d: Dma, mem: Memory)
    requires Inv(d) && d.phase == Active
    ensures var (e, m) := Tick(d, mem);
      if d.stepLeft > 1 then e == d.(stepLeft := d.stepLeft - 1) && m == mem
      else
        && e.current == d.current + 1 && e.activeStart == d.activeStart && e.stepLeft == NEXT_STEP
        && e.phase == (if d.current + 1 < OAM_SIZE then Active else Inactive)
        && OamByte(m, d.current) == mem[SourceAddress(d.activeStart, d.current)]
        && forall i :: 0 <= i < OAM_SIZE && i != d.current ==> OamByte(m, i) == OamByte(mem, i)
  {
    hide SourceAddress;
  }

  lemma SeenLater(d: Dma, mem: Memory, program: Program, t: nat, j: nat)
    requires Inv(d) && j > 0
    ensures var (e, m) := Tick(d, program(t, mem));
      Inv(e) && Seen(d, mem, program, t, j) == Seen(e, m, program, t + 1, j - 1)
  {
    TickInv(d, program(t, mem));
    hide Inv, Tick;
  }

  lemma SeenFirst(d: Dma, mem: Memory, program: Program, t: nat)
    requires Inv(d)
    ensures Seen(d, mem, program, t, 0) == program(t, mem)
  {
    hide Inv, Tick;
  }

  lemma LiveUnfolds(d: Dma, mem: Memory, program: Program, t: nat, n: nat)
    requires Inv(d)
    ensures LiveTicks(d, mem, program, t, 0) == (d, mem)
    ensures n > 0 ==>
      var (e, m) := Tick(d, program(t, mem));
      Inv(e) && LiveTicks(d, mem, program, t, n) == LiveTicks(e, m, program, t + 1, n - 1)
  {
    TickInv(d, program(t, mem));
    hide Inv, Tick;
  }

  lemma {:induction false} CopyRestLive(d: Dma, mem: Memory, program: Program, t: nat)
    requires Inv(d) && d.phase == Active && KeepsOam(program)
    ensures TicksLeft(d) >= 1
    ensures CopiedLive(d, mem, program, t, LiveTicks(d, mem, program, t, TicksLeft(d)).1)
    decreases TicksLeft(d)
  {
    hide Tick, LiveTicks, Seen, SourceAddress, OamByte;
    var n := TicksLeft(d);
    var seen := program(t, mem);
    var (e, m) := Tick(d, seen);
    ActiveTick(d, seen);
    LiveUnfolds(d, mem, program, t, n);
    LiveUnfolds(e, m, program, t + 1, 0);
    SeenFirst(d, mem, program, t);
    var after := LiveTicks(d, mem, program, t, n).1;
    if e.phase == Active {
      CopyRestLive(e, m, program, t + 1);
    }
    forall i | d.current <= i < OAM_SIZE
      ensures OamByte(after, i) == Seen(d, mem, program, t, CopyTick(d, i))[SourceAddress(d.activeStart, i)]
    {
      if CopyTick(d, i) > 0 {
        SeenLater(d, mem, program, t, CopyTick(d, i));
      }
    }
  }

  /** A transfer started in any state and not restarted, while the program runs on and leaves object
      memory alone: it is over after exactly 648 ticks, byte `i` is what its source held in tick
      12 + 4 * i, counted from the start, and no tick of it changes anything but object memory. */
  lemma LiveCopy(d: Dma, mem: Memory, program: Program, t: nat, page: byte)
    requires Inv(d) && KeepsOam(program)
    ensures var s := StartTransfer(d, page * 0x100);
      && Inv(s)
      && var (e, m) := LiveTicks(s, mem, program, t, TRANSFER_TICKS);
         && e.phase == Inactive
         && (forall k :: 0 <= k < TRANSFER_TICKS ==> LiveTicks(s, mem, program, t, k).0.phase != Inactive)
         && (forall k :: 0 <= k < TRANSFER_TICKS ==>
              OnlyOamDiffers(Seen(s, mem, program, t, k), LiveTicks(s, mem, program, t, k + 1).1))
         && forall i :: 0 <= i < OAM_SIZE ==>
              OamByte(m, i) == Seen(s, mem, program, t, 11 + 4 * i)[SourceAddress(page * 0x100, i)]
  {
    hide Tick, LiveTicks, SourceAddress, OamByte, Ticks, KeepsOam, OnlyOamDiffers;
    BlockCopy(d, mem, page);
    var s := StartTransfer(d, page * 0x100);
    SamePhases(s, mem, program, t, TRANSFER_TICKS, mem);
    forall k | 0 <= k < TRANSFER_TICKS ensures LiveTicks(s, mem, program, t, k).0.phase != Inactive {
      SamePhases(s, mem, program, t, k, mem);
    }
    forall k | 0 <= k < TRANSFER_TICKS
      ensures OnlyOamDiffers(Seen(s, mem, program, t, k), LiveTicks(s, mem, program, t, k + 1).1)
    {
      LiveWritesOam(s, mem, program, t, k);
    }
    StartDelay(s, mem);
    SamePhases(s, mem, program, t, START_DELAY, mem);
    var (a, m) := LiveTicks(s, mem, program, t, START_DELAY);
    CopyRestLive(a, m, program, t + START_DELAY);
    LiveSplit(s, mem, program, t, START_DELAY, TRANSFER_TICKS - START_DELAY);
    forall i | 0 <= i < OAM_SIZE
      ensures Seen(s, mem, program, t, 11 + 4 * i) == Seen(a, m, program, t + START_DELAY, CopyTick(a, i))
    {
      LiveSplit(s, mem, program, t, START_DELAY, 7 + 4 * i);
    }
  }
}
