/** The OAM DMA engine: start, restart and active phases, counted in ticks, that together
    must amount to a block copy of 160 bytes. */
module OamDma {
  import opened Common

  const OAM_BASE := 0xFE00
  const OAM_SIZE := 160
  const START_DELAY := 4
  const FIRST_STEP := 8
  const NEXT_STEP := 4
  const TRANSFER_TICKS := 648

  datatype Phase = Inactive | Starting | Restarting | Active

  datatype Dma = Dma(phase: Phase, stepLeft: nat, startLeft: nat, current: byte, activeStart: word, lastStart: word)

  /** Source addresses at or above 0xE000 are folded down into work RAM. */
  function SourceAddress(start: word, i: nat): word {
    var raw := Word(start + i);
    if raw >= 0xE000 then raw - 0x2000 else raw
  }

  function TransferByte(mem: Memory, start: word, i: byte): Memory {
    mem[Word(OAM_BASE + i) := mem[SourceAddress(start, i)]]
  }

  function StartTransfer(d: Dma, start: word): Dma {
    d.(lastStart := start, phase := if d.phase == Active then Restarting else Starting, startLeft := START_DELAY)
  }

  function TickBatch(d: Dma): nat {
    match d.phase
    case Starting => d.startLeft
    case Restarting => Min(d.startLeft, d.stepLeft)
    case Active => d.stepLeft
    case Inactive => UNBOUNDED
  }

  function Activate(d: Dma): Dma {
    d.(phase := Active, current := 0, activeStart := d.lastStart, stepLeft := FIRST_STEP)
  }

  // ---------------------------------------------------------------- steps

  /** `k` ticks of the start delay, not past its end. */
  function StartingTicks(d: Dma, k: nat): Dma {
    var e := d.(startLeft := d.startLeft - Min(k, d.startLeft));
    if e.startLeft == 0 then Activate(e) else e
  }

  /** `k` ticks while the old transfer still runs and the new one waits to start. */
  function RestartingTicks(d: Dma, mem: Memory, k: nat): (Dma, Memory)
    requires k <= Min(d.startLeft, d.stepLeft)
  {
    var e := d.(startLeft := d.startLeft - k, stepLeft := d.stepLeft - k);
    var m := if e.stepLeft == 0 then TransferByte(mem, e.activeStart, e.current) else mem;
    var f := if e.stepLeft == 0 then e.(current := Byte(e.current + 1), stepLeft := NEXT_STEP) else e;
    (if f.startLeft == 0 then Activate(f) else f, m)
  }

  /** `k` ticks towards the next byte, not past it. */
  function ActiveTicks(d: Dma, mem: Memory, k: nat): (Dma, Memory)
    requires k <= d.stepLeft
  {
    var e := d.(stepLeft := d.stepLeft - k);
    if e.stepLeft > 0 then (e, mem)
    else
      var next := Byte(e.current + 1);
      (e.(current := next, phase := if next >= OAM_SIZE then Inactive else Active, stepLeft := NEXT_STEP),
       TransferByte(mem, e.activeStart, e.current))
  }

  /** One tick. */
  function Tick(d: Dma, mem: Memory): (Dma, Memory)
    requires Inv(d)
  {
    match d.phase
    case Inactive => (d, mem)
    case Starting => (StartingTicks(d, 1), mem)
    case Restarting => RestartingTicks(d, mem, 1)
    case Active => ActiveTicks(d, mem, 1)
  }

  // ---------------------------------------------------------------- invariant

  /** While restarting, at most one more byte of the old transfer is due before it is abandoned;
      the countdowns leave no room for a 161st. */
  ghost predicate Inv(d: Dma) {
    && d.lastStart % 0x100 == 0 && d.activeStart % 0x100 == 0
    && match d.phase
       case Inactive => true
       case Starting => 1 <= d.startLeft <= START_DELAY
       case Restarting =>
         && 1 <= d.startLeft <= START_DELAY && 1 <= d.stepLeft <= FIRST_STEP
         && d.current <= OAM_SIZE && (d.current == OAM_SIZE ==> d.stepLeft > d.startLeft)
       case Active => 1 <= d.stepLeft <= FIRST_STEP && d.current < OAM_SIZE
  }

  /** Byte `i` of object memory. */
  function OamByte(mem: Memory, i: nat): byte
    requires i < OAM_SIZE
  {
    mem[OAM_BASE + i]
  }

  /** Everything outside object memory is as it was. */
  ghost predicate OnlyOamDiffers(before: Memory, after: Memory) {
    forall a :: 0 <= a < 0x1_0000 && !(OAM_BASE <= a < OAM_BASE + OAM_SIZE) ==> after[a] == before[a]
  }

  lemma TickInv(d: Dma, mem: Memory)
    requires Inv(d)
    ensures var (e, m) := Tick(d, mem);
      && Inv(e) && OnlyOamDiffers(mem, m) && e.lastStart == d.lastStart
      && 1 <= TickBatch(d)
  {
  }

  datatype Action = Start(page: byte) | Pass

  ghost function Act(d: Dma, mem: Memory, a: Action): (Dma, Memory)
    requires Inv(d)
  {
    match a
    case Start(page) => (StartTransfer(d, page * 0x100), mem)
    case Pass => Tick(d, mem)
  }

  lemma ActInv(d: Dma, mem: Memory, a: Action)
    requires Inv(d)
    ensures var (e, m) := Act(d, mem, a); Inv(e) && OnlyOamDiffers(mem, m)
  {
    match a {
      case Start(page) => assert page * 0x100 % 0x100 == 0;
      case Pass => TickInv(d, mem);
    }
  }

  ghost function Run(d: Dma, mem: Memory, actions: seq<Action>): (r: (Dma, Memory))
    requires Inv(d)
    ensures Inv(r.0)
  {
    if actions == [] then (d, mem)
    else
      var (e, m) := Run(d, mem, actions[..|actions| - 1]);
      ActInv(e, m, actions[|actions| - 1]);
      Act(e, m, actions[|actions| - 1])
  }

  /** Whatever transfers are started and restarted, and whenever, no write ever leaves object
      memory and the engine always has a positive batch to announce. */
  lemma {:induction false} NeverLeavesOam(d: Dma, mem: Memory, actions: seq<Action>)
    requires Inv(d)
    ensures var (e, m) := Run(d, mem, actions); Inv(e) && OnlyOamDiffers(mem, m) && 1 <= TickBatch(e)
  {
    hide Inv, Act, TickBatch;
    if actions != [] {
      NeverLeavesOam(d, mem, actions[..|actions| - 1]);
      var (e, m) := Run(d, mem, actions[..|actions| - 1]);
      ActInv(e, m, actions[|actions| - 1]);
    }
    var (e, m) := Run(d, mem, actions);
    TickInv(e, m);
  }

  // ---------------------------------------------------------------- runs of ticks

  ghost function Ticks(d: Dma, mem: Memory, n: nat): (r: (Dma, Memory))
    requires Inv(d)
    ensures Inv(r.0)
    decreases n
  {
    if n == 0 then (d, mem)
    else
      TickInv(d, mem);
      var (e, m) := Tick(d, mem);
      Ticks(e, m, n - 1)
  }

  lemma {:induction false} TicksSplit(d: Dma, mem: Memory, a: nat, b: nat)
    requires Inv(d)
    ensures var (e, m) := Ticks(d, mem, a); Ticks(d, mem, a + b) == Ticks(e, m, b)
    decreases a
  {
    hide Inv, Tick;
    if a > 0 {
      TickInv(d, mem);
      var (e, m) := Tick(d, mem);
      TicksSplit(e, m, a - 1, b);
    }
  }

  lemma OneTick(d: Dma, mem: Memory)
    requires Inv(d)
    ensures Ticks(d, mem, 1) == Tick(d, mem)
  {
    TickInv(d, mem);
    var (e, m) := Tick(d, mem);
    hide Inv, Tick;
    assert Ticks(e, m, 0) == (e, m);
  }

  lemma {:induction false} StartingIsTicks(d: Dma, mem: Memory, k: nat)
    requires Inv(d) && d.phase == Starting && k <= d.startLeft
    ensures k > 0 ==> Ticks(d, mem, k) == (StartingTicks(d, k), mem)
    decreases k
  {
    if k == 1 {
      OneTick(d, mem);
    } else if k > 1 {
      TickInv(d, mem);
      StartingIsTicks(StartingTicks(d, 1), mem, k - 1);
    }
  }

  lemma {:induction false} RestartingIsTicks(d: Dma, mem: Memory, k: nat)
    requires Inv(d) && d.phase == Restarting && k <= Min(d.startLeft, d.stepLeft)
    ensures k > 0 ==> Ticks(d, mem, k) == RestartingTicks(d, mem, k)
    decreases k
  {
    if k == 1 {
      OneTick(d, mem);
    } else if k > 1 {
      TickInv(d, mem);
      hide TransferByte, Activate;
      var e := d.(startLeft := d.startLeft - 1, stepLeft := d.stepLeft - 1);
      assert Tick(d, mem) == (e, mem);
      RestartingIsTicks(e, mem, k - 1);
    }
  }

  lemma {:induction false} ActiveIsTicks(d: Dma, mem: Memory, k: nat)
    requires Inv(d) && d.phase == Active && k <= d.stepLeft
    ensures k > 0 ==> Ticks(d, mem, k) == ActiveTicks(d, mem, k)
    decreases k
  {
    if k == 1 {
      OneTick(d, mem);
    } else if k > 1 {
      TickInv(d, mem);
      hide TransferByte;
      var e := d.(stepLeft := d.stepLeft - 1);
      assert Tick(d, mem) == (e, mem);
      ActiveIsTicks(e, mem, k - 1);
    }
  }

  // ---------------------------------------------------------------- block copy

  /** Bytes `from`.. of object memory hold the source bytes; nothing else has changed. */
  ghost predicate CopiedFrom(before: Memory, after: Memory, start: word, from: nat) {
    && OnlyOamDiffers(before, after)
    && (forall i :: from <= i < OAM_SIZE ==> OamByte(after, i) == before[SourceAddress(start, i)])
    && (forall i :: 0 <= i < from && i < OAM_SIZE ==> OamByte(after, i) == OamByte(before, i))
  }

  lemma SourceOutsideOam(start: word, i: nat)
    requires start % 0x100 == 0 && i < OAM_SIZE
    ensures SourceAddress(start, i) < 0xE000
    ensures SourceAddress(start, i) == if start >= 0xE000 then start + i - 0x2000 else start + i
  {
  }

  lemma {:induction false} CopyRest(d: Dma, mem: Memory)
    requires Inv(d) && d.phase == Active
    ensures var n := d.stepLeft + NEXT_STEP * (OAM_SIZE - 1 - d.current);
      var (e, m) := Ticks(d, mem, n);
      e.phase == Inactive && CopiedFrom(mem, m, d.activeStart, d.current)
    ensures forall k :: 0 <= k < d.stepLeft + NEXT_STEP * (OAM_SIZE - 1 - d.current) ==>
      Ticks(d, mem, k).0.phase == Active
    decreases OAM_SIZE - d.current
  {
    var first := d.stepLeft;
    var rest := NEXT_STEP * (OAM_SIZE - 1 - d.current);
    var (e, m) := ActiveTicks(d, mem, first);
    ActiveIsTicks(d, mem, first);
    BeforeByte(d, mem);
    SourceOutsideOam(d.activeStart, d.current);
    TransferCopies(mem, d.activeStart, d.current);
    if d.current + 1 < OAM_SIZE {
      CopyRest(e, m);
      TicksSplit(d, mem, first, rest);
      ThenRest(d, mem, m, Ticks(e, m, rest).1);
      forall k | 0 <= k < first + rest ensures Ticks(d, mem, k).0.phase == Active {
        if k >= first {
          TicksSplit(d, mem, first, k - first);
        }
      }
    }
  }

  lemma BeforeByte(d: Dma, mem: Memory)
    requires Inv(d) && d.phase == Active
    ensures forall k :: 0 <= k < d.stepLeft ==> Ticks(d, mem, k).0.phase == Active
  {
    forall k | 0 <= k < d.stepLeft ensures Ticks(d, mem, k).0.phase == Active {
      ActiveIsTicks(d, mem, k);
    }
  }

  lemma TransferCopies(mem: Memory, start: word, i: byte)
    requires start % 0x100 == 0 && i < OAM_SIZE
    ensures var m := TransferByte(mem, start, i);
      && OnlyOamDiffers(mem, m) && OamByte(m, i) == mem[SourceAddress(start, i)]
      && forall j :: 0 <= j < OAM_SIZE && j != i ==> OamByte(m, j) == OamByte(mem, j)
  {
  }

  lemma ThenRest(d: Dma, mem: Memory, m: Memory, last: Memory)
    requires d.activeStart % 0x100 == 0 && d.current + 1 < OAM_SIZE
    requires OnlyOamDiffers(mem, m) && OamByte(m, d.current) == mem[SourceAddress(d.activeStart, d.current)]
    requires forall j :: 0 <= j < OAM_SIZE && j != d.current ==> OamByte(m, j) == OamByte(mem, j)
    requires CopiedFrom(m, last, d.activeStart, d.current + 1)
    ensures CopiedFrom(mem, last, d.activeStart, d.current)
  {
    hide SourceAddress;
    assert OamByte(last, d.current) == OamByte(m, d.current);
    forall i | d.current + 1 <= i < OAM_SIZE ensures OamByte(last, i) == mem[SourceAddress(d.activeStart, i)] {
      SourceOutsideOam(d.activeStart, i);
    }
  }

  /** A transfer started in any state, if not restarted, is over after exactly 648 ticks, and
      object memory then holds the 160 bytes of the source page as they were at the start. */
  lemma BlockCopy(d: Dma, mem: Memory, page: byte)
    requires Inv(d)
    ensures var s := StartTransfer(d, page * 0x100);
      && Inv(s)
      && var (e, m) := Ticks(s, mem, TRANSFER_TICKS);
         && e.phase == Inactive
         && OnlyOamDiffers(mem, m)
         && (forall i :: 0 <= i < OAM_SIZE ==> OamByte(m, i) == mem[SourceAddress(page * 0x100, i)])
         && (forall k :: 0 <= k < TRANSFER_TICKS ==> Ticks(s, mem, k).0.phase != Inactive)
  {
    var s := StartTransfer(d, page * 0x100);
    assert page * 0x100 % 0x100 == 0;
    StartDelay(s, mem);
    var (a, m) := Ticks(s, mem, START_DELAY);
    CopyRest(a, m);
    TicksSplit(s, mem, START_DELAY, TRANSFER_TICKS - START_DELAY);
    forall i | 0 <= i < OAM_SIZE ensures m[SourceAddress(page * 0x100, i)] == mem[SourceAddress(page * 0x100, i)] {
      SourceOutsideOam(page * 0x100, i);
    }
    forall k | START_DELAY <= k < TRANSFER_TICKS ensures Ticks(s, mem, k).0.phase != Inactive {
      TicksSplit(s, mem, START_DELAY, k - START_DELAY);
    }
  }

  /** The four ticks before the new transfer takes over; an old one may still move a byte. */
  lemma StartDelay(s: Dma, mem: Memory)
    requires Inv(s) && (s.phase == Starting || s.phase == Restarting) && s.startLeft == START_DELAY
    ensures var (a, m) := Ticks(s, mem, START_DELAY);
      && a.phase == Active && a.current == 0 && a.stepLeft == FIRST_STEP && a.activeStart == s.lastStart
      && OnlyOamDiffers(mem, m)
    ensures forall k :: 0 <= k < START_DELAY ==> Ticks(s, mem, k).0.phase != Inactive
  {
    var (d1, m1) := Tick(s, mem);
    TickInv(s, mem);
    var (d2, m2) := Tick(d1, m1);
    TickInv(d1, m1);
    var (d3, m3) := Tick(d2, m2);
    TickInv(d2, m2);
    var (d4, m4) := Tick(d3, m3);
    TickInv(d3, m3);
    WaitingTick(s, mem);
    WaitingTick(d1, m1);
    WaitingTick(d2, m2);
    WaitingTick(d3, m3);
    hide Inv, Tick;
    assert Ticks(s, mem, 1) == Ticks(d1, m1, 0);
    assert Ticks(s, mem, 2) == Ticks(d1, m1, 1) == Ticks(d2, m2, 0);
    assert Ticks(s, mem, 3) == Ticks(d1, m1, 2) == Ticks(d2, m2, 1) == Ticks(d3, m3, 0);
    assert Ticks(s, mem, 4) == Ticks(d1, m1, 3) == Ticks(d2, m2, 2) == Ticks(d3, m3, 1) == Ticks(d4, m4, 0);
  }

  lemma WaitingTick(d: Dma, mem: Memory)
    requires Inv(d) && (d.phase == Starting || d.phase == Restarting)
    ensures var e := Tick(d, mem).0;
      if d.startLeft > 1 then e.phase == d.phase && e.startLeft == d.startLeft - 1 && e.lastStart == d.lastStart
      else e == Activate(e) && e.activeStart == d.lastStart
  {
  }
}
