/** The serial link: one bit every 512 ticks while this side drives the clock. The other side answers
    each bit as it likes, knowing every bit it has been sent. */
module Serial {
  import opened Common

  const BIT_TICKS := 512

  /** `sent`, `received` and `interrupts` record what has happened on the wires. */
  datatype Link = Link(data: byte, enabled: bool, master: bool, bits: byte, accumulator: nat,
                       sent: seq<nat>, received: seq<nat>, interrupts: nat)

  /** The answer to a bit, given all bits sent so far, that one included. */
  type Peer = seq<nat> -> byte

  predicate Active(l: Link) {
    l.enabled && l.master
  }

  predicate Inv(l: Link) {
    l.bits < 8 && l.accumulator < BIT_TICKS
  }

  function TickBatch(l: Link): nat
    requires l.bits < 8
  {
    if Active(l) then (8 - l.bits) * BIT_TICKS else UNBOUNDED
  }

  /** Shift one bit out at the top and one in at the bottom; the eighth ends the transfer. */
  function TransferBit(l: Link, peer: Peer): (m: Link)
    requires l.bits < 8
    ensures m.bits < 8 && m.accumulator == l.accumulator
  {
    var sent := l.sent + [l.data / 128];
    var answer := peer(sent) % 2;
    var shifted := l.(data := Byte(l.data * 2 + answer), sent := sent, received := l.received + [answer],
      bits := l.bits + 1);
    if shifted.bits >= 8 then shifted.(enabled := false, bits := 0, interrupts := l.interrupts + 1) else shifted
  }

  function Drain(l: Link, peer: Peer): Link
    requires l.bits < 8
    decreases l.accumulator
  {
    if l.accumulator < BIT_TICKS then l
    else Drain(TransferBit(l.(accumulator := l.accumulator - BIT_TICKS), peer), peer)
  }

  function Ticks(l: Link, peer: Peer, n: nat): Link
    requires l.bits < 8
  {
    if Active(l) then Drain(l.(accumulator := l.accumulator + n), peer) else l
  }

  /** A bit clocked in by the other side. */
  function ExternalTick(l: Link, peer: Peer): Link
    requires l.bits < 8
  {
    if l.enabled && !l.master then TransferBit(l, peer) else l
  }

  datatype Register = WriteData(value: byte) | WriteControl(value: byte)

  function Write(l: Link, r: Register): Link {
    match r
    case WriteData(v) => l.(data := v)
    case WriteControl(v) => l.(enabled := Bit(v, 7) == 1, master := Bit(v, 0) == 1)
  }

  // ---------------------------------------------------------------- invariant and horizon

  lemma {:induction false} DrainKeeps(l: Link, peer: Peer)
    requires l.bits < 8
    ensures Inv(Drain(l, peer))
    decreases l.accumulator
  {
    if l.accumulator >= BIT_TICKS {
      DrainKeeps(TransferBit(l.(accumulator := l.accumulator - BIT_TICKS), peer), peer);
    }
  }

  lemma DrainUnfolds(l: Link, peer: Peer)
    requires l.bits < 8
    ensures Drain(l, peer) ==
      if l.accumulator < BIT_TICKS then l
      else Drain(TransferBit(l.(accumulator := l.accumulator - BIT_TICKS), peer), peer)
  {
    hide TransferBit;
  }

  /** The link always announces at least one bit's worth of ticks. */
  lemma HorizonPositive(l: Link, peer: Peer, n: nat, r: Register)
    requires Inv(l)
    ensures TickBatch(l) >= BIT_TICKS
    ensures Inv(Ticks(l, peer, n)) && Inv(ExternalTick(l, peer)) && Inv(Write(l, r))
  {
    DrainKeeps(l.(accumulator := l.accumulator + n), peer);
    hide Drain;
  }

  // ---------------------------------------------------------------- bits

  function Bits(l: Link, peer: Peer, k: nat): (m: Link)
    requires l.bits < 8
    ensures m.bits < 8
    decreases k
  {
    if k == 0 then l else Bits(TransferBit(l, peer), peer, k - 1)
  }

  lemma {:induction false} BitsIgnoreAccumulator(l: Link, peer: Peer, k: nat, accumulator: nat)
    requires l.bits < 8
    ensures Bits(l.(accumulator := accumulator), peer, k) == Bits(l, peer, k).(accumulator := accumulator)
    decreases k
  {
    if k > 0 {
      BitsIgnoreAccumulator(TransferBit(l, peer), peer, k - 1, accumulator);
    }
  }

  lemma OneBitLess(a: nat)
    requires a >= BIT_TICKS
    ensures (a - BIT_TICKS) / BIT_TICKS == a / BIT_TICKS - 1 && (a - BIT_TICKS) % BIT_TICKS == a % BIT_TICKS
  {
  }

  /** Draining exchanges one bit per 512 accumulated ticks and keeps the remainder. */
  lemma {:induction false} DrainIsBits(l: Link, peer: Peer)
    requires l.bits < 8
    ensures Drain(l, peer) == Bits(l, peer, l.accumulator / BIT_TICKS).(accumulator := l.accumulator % BIT_TICKS)
    decreases l.accumulator
  {
    hide TransferBit;
    if l.accumulator >= BIT_TICKS {
      var less := l.(accumulator := l.accumulator - BIT_TICKS);
      OneBitLess(l.accumulator);
      DrainIsBits(TransferBit(less, peer), peer);
      BitsIgnoreAccumulator(l, peer, l.accumulator / BIT_TICKS, less.accumulator);
      BitsIgnoreAccumulator(less, peer, l.accumulator / BIT_TICKS, l.accumulator % BIT_TICKS);
      hide Drain;
    }
  }

  lemma {:induction false} BitsSplit(l: Link, peer: Peer, j: nat, k: nat)
    requires l.bits < 8
    ensures Bits(l, peer, j + k) == Bits(Bits(l, peer, j), peer, k)
    decreases j
  {
    hide TransferBit;
    if j > 0 {
      BitsSplit(TransferBit(l, peer), peer, j - 1, k);
    }
  }

  /** Short of the eighth bit the transfer goes on. */
  lemma {:induction false} StillActive(l: Link, peer: Peer, k: nat)
    requires l.bits + k < 8
    ensures var m := Bits(l, peer, k); m.bits == l.bits + k && m.enabled == l.enabled && m.master == l.master
    ensures Bits(l, peer, k).interrupts == l.interrupts
    decreases k
  {
    if k > 0 {
      StillActive(TransferBit(l, peer), peer, k - 1);
    }
  }

  lemma MoreTicks(x: nat, b: nat)
    ensures (x + b) / BIT_TICKS == x / BIT_TICKS + (x % BIT_TICKS + b) / BIT_TICKS
    ensures (x + b) % BIT_TICKS == (x % BIT_TICKS + b) % BIT_TICKS
  {
  }

  /** Ticking an active link exchanges one bit per 512 ticks accumulated. */
  lemma TicksAreBits(l: Link, peer: Peer, n: nat)
    requires Inv(l) && Active(l)
    ensures var x := l.accumulator + n;
      Ticks(l, peer, n) == Bits(l, peer, x / BIT_TICKS).(accumulator := x % BIT_TICKS)
  {
    hide Drain, Bits;
    var x := l.accumulator + n;
    DrainIsBits(l.(accumulator := x), peer);
    BitsIgnoreAccumulator(l, peer, x / BIT_TICKS, x);
  }

  /** Splitting a run of ticks makes no difference as long as the first part does not finish the
      transfer. */
  lemma TicksSplit(l: Link, peer: Peer, a: nat, b: nat)
    requires Inv(l) && (Active(l) ==> l.bits + (l.accumulator + a) / BIT_TICKS < 8)
    ensures Inv(Ticks(l, peer, a))
    ensures Ticks(l, peer, a + b) == Ticks(Ticks(l, peer, a), peer, b)
  {
    HorizonPositive(l, peer, a, WriteData(0));
    if Active(l) {
      ActiveSplit(l, peer, a, b);
    }
  }

  lemma ActiveSplit(l: Link, peer: Peer, a: nat, b: nat)
    requires Inv(l) && Active(l) && l.bits + (l.accumulator + a) / BIT_TICKS < 8
    ensures Inv(Ticks(l, peer, a))
    ensures Ticks(l, peer, a + b) == Ticks(Ticks(l, peer, a), peer, b)
  {
    hide Ticks, Bits;
    var x := l.accumulator + a;
    var j, k := x / BIT_TICKS, (x % BIT_TICKS + b) / BIT_TICKS;
    MoreTicks(x, b);
    HorizonPositive(l, peer, a, WriteData(0));
    TicksAreBits(l, peer, a);
    TicksAreBits(l, peer, a + b);
    StillActive(l, peer, j);
    TicksAreBits(Ticks(l, peer, a), peer, b);
    BitsSplit(l, peer, j, k);
    BitsIgnoreAccumulator(Bits(l, peer, j), peer, k, x % BIT_TICKS);
  }

  // ---------------------------------------------------------------- a whole byte

  /** Bits in the order they crossed the wire, as a number, most significant first. */
  function ValueOf(bits: seq<nat>): nat {
    if bits == [] then 0 else ValueOf(bits[..|bits| - 1]) * 2 + bits[|bits| - 1]
  }

  lemma ValueGrows(bits: seq<nat>, b: nat)
    ensures ValueOf(bits + [b]) == ValueOf(bits) * 2 + b
  {
    assert (bits + [b])[..|bits|] == bits;
  }

  lemma BitsLast(l: Link, peer: Peer, k: nat)
    requires l.bits < 8 && k > 0
    ensures Bits(l, peer, k) == TransferBit(Bits(l, peer, k - 1), peer)
  {
    BitsSplit(l, peer, k - 1, 1);
    hide TransferBit;
    assert Bits(Bits(l, peer, k - 1), peer, 1) == Bits(TransferBit(Bits(l, peer, k - 1), peer), peer, 0);
  }

  lemma BitStep(data: byte, bit: nat)
    requires bit < 2
    ensures data / 128 * 256 + Byte(data * 2 + bit) == data * 2 + bit
  {
  }

  function Answer(l: Link, peer: Peer): nat {
    peer(l.sent + [l.data / 128]) % 2
  }

  /** One exchange moves a bit from the byte held to the bits sent, and takes one in. */
  lemma BitConserves(l: Link, peer: Peer, sent: seq<nat>, received: seq<nat>)
    requires l.bits < 8
    ensures ValueOf(sent + [l.data / 128]) * 256 + TransferBit(l, peer).data
         == 2 * (ValueOf(sent) * 256 + l.data) + Answer(l, peer)
    ensures ValueOf(received + [Answer(l, peer)]) == 2 * ValueOf(received) + Answer(l, peer)
    ensures Answer(l, peer) < 2
  {
    ValueGrows(sent, l.data / 128);
    ValueGrows(received, Answer(l, peer));
    BitStep(l.data, Answer(l, peer));
    hide ValueOf, Byte;
  }

  lemma Appended(l: Link, peer: Peer)
    requires l.bits < 8
    ensures TransferBit(l, peer).sent == l.sent + [l.data / 128]
    ensures TransferBit(l, peer).received == l.received + [Answer(l, peer)]
  {
  }

  /** Nothing on the wires is lost: what has been sent and what is held together are the original
      byte followed by what has been received. */
  lemma {:induction false} WireConserves(l: Link, peer: Peer, k: nat)
    requires l.bits < 8
    ensures var m := Bits(l, peer, k);
      && |m.sent| == |l.sent| + k && m.sent[..|l.sent|] == l.sent
      && |m.received| == |l.received| + k && m.received[..|l.received|] == l.received
      && ValueOf(m.received[|l.received|..]) < Pow2(k)
      && ValueOf(m.sent[|l.sent|..]) * 256 + m.data == l.data * Pow2(k) + ValueOf(m.received[|l.received|..])
    decreases k
  {
    hide Bits, Pow2, TransferBit, ValueOf, Answer;
    NoBits(l, peer);
    if k > 0 {
      WireConserves(l, peer, k - 1);
      BitsLast(l, peer, k);
      var before, m := Bits(l, peer, k - 1), Bits(l, peer, k);
      Appended(before, peer);
      BitConserves(before, peer, before.sent[|l.sent|..], before.received[|l.received|..]);
      assert m.sent[|l.sent|..] == before.sent[|l.sent|..] + [before.data / 128];
      assert m.received[|l.received|..] == before.received[|l.received|..] + [Answer(before, peer)];
      MoreBits(k, l.data);
    } else {
      assert l.sent[|l.sent|..] == [] && l.received[|l.received|..] == [];
    }
  }

  lemma NoBits(l: Link, peer: Peer)
    requires l.bits < 8
    ensures Bits(l, peer, 0) == l && Pow2(0) == 1 && ValueOf([]) == 0
  {
  }

  lemma MoreBits(k: nat, data: byte)
    requires k > 0
    ensures Pow2(k) == 2 * Pow2(k - 1) && data * Pow2(k) == 2 * (data * Pow2(k - 1))
  {
  }

  lemma EighthEnds(l: Link, peer: Peer)
    requires l.bits == 7
    ensures var m := TransferBit(l, peer); !m.enabled && m.bits == 0 && m.interrupts == l.interrupts + 1
  {
  }

  lemma Powers()
    ensures Pow2(0) == 1 && Pow2(1) == 2 && Pow2(2) == 4 && Pow2(3) == 8 && Pow2(4) == 16
    ensures Pow2(5) == 32 && Pow2(6) == 64 && Pow2(7) == 128 && Pow2(8) == 256
  {
  }

  lemma PowersMeet(j: nat)
    requires j <= 8
    ensures Pow2(j) * Pow2(8 - j) == 256
  {
    Powers();
    hide Pow2;
  }

  /** A byte's low part, moved to the top, leaves room below it for what comes in. */
  lemma RoomBelow(p: nat, q: nat, r: nat, incoming: nat)
    requires p * q == 256 && r < p && incoming < q
    ensures r * q + incoming < 256
  {
    AtLeastOnce(p - r, q);
    Distribute(r, p - r, q);
  }

  lemma MovedUp(h: nat, p: nat, r: nat, q: nat)
    requires p * q == 256
    ensures (h * p + r) * q == h * 256 + r * q
  {
    Distribute(h * p, r, q);
    assert h * p * q == h * (p * q);
  }

  lemma CutAt(h: nat, p: nat, r: nat, q: nat, high: nat, low: byte, incoming: nat)
    requires p * q == 256 && r < p && incoming < q
    requires high * 256 + low == (h * p + r) * q + incoming
    ensures high == h && low == r * q + incoming
  {
    MovedUp(h, p, r, q);
    RoomBelow(p, q, r, incoming);
    var m, rest := high * 256 + low, r * q + incoming;
    Quotient(m, 256, high, low);
    Quotient(m, 256, h, rest);
  }

  /** Cutting a byte above its low bits, once it has been shifted past the top of the register. */
  lemma HighBits(data: byte, p: nat, q: nat, high: nat, low: byte, incoming: nat)
    requires p > 0 && p * q == 256 && incoming < q
    requires high * 256 + low == data * q + incoming
    ensures high == data / p && low == data % p * q + incoming
  {
    var h, r := data / p, data % p;
    assert data == h * p + r;
    CutAt(h, p, r, q, high, low, incoming);
  }

  /** The rest of a byte, however much of it an earlier transfer has shifted already: the bits still
      held go out from the top, the other side's come in behind those left, and the transfer ends with
      one interrupt. From the start of a byte the two sides swap their bytes. */
  lemma ByteExchanged(l: Link, peer: Peer)
    requires l.bits < 8
    ensures var k := 8 - l.bits; var m := Bits(l, peer, k);
      && |m.sent| == |l.sent| + k && |m.received| == |l.received| + k
      && ValueOf(m.sent[|l.sent|..]) == l.data / Pow2(l.bits)
      && m.data == l.data % Pow2(l.bits) * Pow2(k) + ValueOf(m.received[|l.received|..])
      && !m.enabled && m.bits == 0 && m.interrupts == l.interrupts + 1
  {
    hide Bits, ValueOf, TransferBit, Pow2;
    var k := 8 - l.bits;
    var m := Bits(l, peer, k);
    WireConserves(l, peer, k);
    StillActive(l, peer, k - 1);
    BitsLast(l, peer, k);
    EighthEnds(Bits(l, peer, k - 1), peer);
    PowersMeet(l.bits);
    HighBits(l.data, Pow2(l.bits), Pow2(k), ValueOf(m.sent[|l.sent|..]), m.data, ValueOf(m.received[|l.received|..]));
  }

  function Calls(l: Link, peer: Peer, ns: seq<nat>): (m: Link)
    requires Inv(l)
    ensures Inv(m)
  {
    if ns == [] then l
    else
      var before := Calls(l, peer, ns[..|ns| - 1]);
      HorizonPositive(before, peer, ns[|ns| - 1], WriteData(0));
      Ticks(before, peer, ns[|ns| - 1])
  }

  /** However the 4096 ticks of a byte are cut into calls, the byte is exchanged exactly when the
      last of them is made. */
  lemma {:induction false} CallsAreTicks(l: Link, peer: Peer, ns: seq<nat>)
    requires Inv(l) && Active(l) && l.accumulator + Sum(ns) <= (8 - l.bits) * BIT_TICKS
    ensures Calls(l, peer, ns) == Ticks(l, peer, Sum(ns))
  {
    hide Ticks, Inv;
    if ns == [] {
      NoTicks(l, peer);
    } else {
      var front, n := ns[..|ns| - 1], ns[|ns| - 1];
      CallsAreTicks(l, peer, front);
      if n > 0 {
        TicksSplit(l, peer, Sum(front), n);
      } else {
        HorizonPositive(l, peer, Sum(front), WriteData(0));
        NoTicks(Ticks(l, peer, Sum(front)), peer);
      }
    }
  }

  lemma NoTicks(l: Link, peer: Peer)
    requires Inv(l)
    ensures Ticks(l, peer, 0) == l
  {
  }

  lemma ByteInCalls(l: Link, peer: Peer, ns: seq<nat>)
    requires Inv(l) && Active(l) && l.accumulator + Sum(ns) == (8 - l.bits) * BIT_TICKS
    ensures var k := 8 - l.bits; var m := Calls(l, peer, ns);
      && |m.sent| == |l.sent| + k && |m.received| == |l.received| + k
      && ValueOf(m.sent[|l.sent|..]) == l.data / Pow2(l.bits)
      && m.data == l.data % Pow2(l.bits) * Pow2(k) + ValueOf(m.received[|l.received|..])
      && !m.enabled && m.bits == 0 && m.accumulator == 0 && m.interrupts == l.interrupts + 1
  {
    hide Calls, Ticks, Bits, ValueOf, Pow2;
    CallsAreTicks(l, peer, ns);
    TicksAreBits(l, peer, Sum(ns));
    ByteExchanged(l, peer);
  }

  lemma TwoCalls(l: Link, peer: Peer, a: nat, b: nat)
    requires Inv(l)
    ensures Inv(Ticks(l, peer, a)) && Calls(l, peer, [a, b]) == Ticks(Ticks(l, peer, a), peer, b)
  {
    HorizonPositive(l, peer, a, WriteData(0));
    hide Ticks;
    assert [a, b][..1] == [a] && [a][..0] == [];
    assert Calls(l, peer, [a]) == Ticks(Calls(l, peer, []), peer, a);
  }

  // ---------------------------------------------------------------- past the eighth bit

  lemma {:induction false} StaysOff(l: Link, peer: Peer, k: nat)
    requires l.bits < 8 && !l.enabled
    ensures !Bits(l, peer, k).enabled
    decreases k
  {
    if k > 0 {
      StaysOff(TransferBit(l, peer), peer, k - 1);
    }
  }

  /** From the eighth bit on the transfer is over. */
  lemma Ended(l: Link, peer: Peer, k: nat)
    requires l.bits < 8 && l.bits + k >= 8
    ensures !Bits(l, peer, k).enabled
  {
    hide Bits, ValueOf, Pow2;
    var left := 8 - l.bits;
    ByteExchanged(l, peer);
    BitsSplit(l, peer, left, k - left);
    StaysOff(Bits(l, peer, left), peer, k - left);
  }

  lemma SameSum(x: nat, b: nat)
    requires (x + b) / BIT_TICKS == x / BIT_TICKS && (x + b) % BIT_TICKS == x % BIT_TICKS
    ensures b == 0
  {
  }

  /** Once the first part has finished the transfer, only an empty second part leaves the two the same. */
  lemma OverrunDiffers(l: Link, peer: Peer, a: nat, b: nat)
    requires Inv(l) && Active(l) && l.bits + (l.accumulator + a) / BIT_TICKS >= 8
    requires Ticks(l, peer, a).bits < 8
    ensures Ticks(Ticks(l, peer, a), peer, b) == Ticks(l, peer, a)
    ensures Ticks(l, peer, a + b) == Ticks(l, peer, a) ==> b == 0
  {
    hide Bits, Drain, ValueOf, Pow2;
    var x := l.accumulator + a;
    TicksAreBits(l, peer, a);
    TicksAreBits(l, peer, a + b);
    Ended(l, peer, x / BIT_TICKS);
    WireConserves(l, peer, x / BIT_TICKS);
    WireConserves(l, peer, (x + b) / BIT_TICKS);
    if Ticks(l, peer, a + b) == Ticks(l, peer, a) {
      SameSum(x, b);
    }
  }

  /** One call equals two exactly when the first does not finish a transfer the second would run on. */
  lemma TicksSplitIff(l: Link, peer: Peer, a: nat, b: nat)
    requires Inv(l)
    ensures Inv(Ticks(l, peer, a))
    ensures Ticks(l, peer, a + b) == Ticks(Ticks(l, peer, a), peer, b)
       <==> !Active(l) || b == 0 || l.bits + (l.accumulator + a) / BIT_TICKS < 8
  {
    HorizonPositive(l, peer, a, WriteData(0));
    hide Ticks;
    if !Active(l) || l.bits + (l.accumulator + a) / BIT_TICKS < 8 {
      TicksSplit(l, peer, a, b);
    } else {
      OverrunDiffers(l, peer, a, b);
      assert a + 0 == a;
    }
  }

  /** A call that runs past the eighth bit goes on shifting, which two calls would not: nine bits leave
      in one call of nine bits' ticks, eight in two. */
  lemma OverrunShiftsOn(l: Link, peer: Peer)
    requires Inv(l) && Active(l) && l.bits == 0 && l.accumulator == 0
    ensures |Ticks(l, peer, 9 * BIT_TICKS).sent| == |l.sent| + 9
    ensures |Calls(l, peer, [8 * BIT_TICKS, BIT_TICKS]).sent| == |l.sent| + 8
  {
    hide Calls, Bits, Drain, ValueOf, Pow2;
    TicksAreBits(l, peer, 9 * BIT_TICKS);
    TicksAreBits(l, peer, 8 * BIT_TICKS);
    WireConserves(l, peer, 9);
    ByteExchanged(l, peer);
    TwoCalls(l, peer, 8 * BIT_TICKS, BIT_TICKS);
  }
}
