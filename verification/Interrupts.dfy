/** The interrupt controller: enable and request flags, and which interrupt comes first. */
module Interrupts {
  import opened Common

  datatype Irq = VBlankIrq | LcdIrq | TimerIrq | SerialIrq | JoypadIrq

  const IE_ADDRESS: word := 0xFFFF
  const IF_ADDRESS: word := 0xFF0F

  /** Priority order; also the bit position in both flag registers. */
  const BY_PRIORITY := [VBlankIrq, LcdIrq, TimerIrq, SerialIrq, JoypadIrq]

  function BitIndex(i: Irq): (k: nat)
    ensures k < 5 && BY_PRIORITY[k] == i
  {
    match i case VBlankIrq => 0 case LcdIrq => 1 case TimerIrq => 2 case SerialIrq => 3 case JoypadIrq => 4
  }

  function Handler(i: Irq): word {
    0x40 + 8 * BitIndex(i)
  }

  /** The two flag registers as sets, and the unused upper bits the enable register remembers. */
  datatype Irqs = Irqs(enabled: set<Irq>, requested: set<Irq>, unusedEnable: byte)

  function FlagsOf(value: byte): set<Irq> {
    set i: Irq | Bit(value, BitIndex(i)) == 1
  }

  function FlagByte(flags: set<Irq>): byte {
    (if VBlankIrq in flags then 1 else 0) + (if LcdIrq in flags then 2 else 0) + (if TimerIrq in flags then 4 else 0)
      + (if SerialIrq in flags then 8 else 0) + (if JoypadIrq in flags then 16 else 0)
  }

  predicate IsPending(s: Irqs, i: Irq) {
    i in s.enabled && i in s.requested
  }

  predicate AnyPending(s: Irqs) {
    s.enabled * s.requested != {}
  }

  function FirstFrom(s: Irqs, k: nat): Option<Irq>
    requires k <= 5
    decreases 5 - k
  {
    if k == 5 then None
    else if IsPending(s, BY_PRIORITY[k]) then Some(BY_PRIORITY[k])
    else FirstFrom(s, k + 1)
  }

  function FirstPending(s: Irqs): Option<Irq> {
    FirstFrom(s, 0)
  }

  lemma {:induction false} FirstFromIsFirst(s: Irqs, k: nat)
    requires k <= 5
    ensures match FirstFrom(s, k)
      case Some(i) => IsPending(s, i) && BitIndex(i) >= k
        && forall j :: IsPending(s, j) && BitIndex(j) >= k ==> BitIndex(i) <= BitIndex(j)
      case None => forall j :: BitIndex(j) >= k ==> !IsPending(s, j)
    decreases 5 - k
  {
    if k < 5 {
      FirstFromIsFirst(s, k + 1);
      assert forall j: Irq :: BitIndex(j) == k ==> j == BY_PRIORITY[k];
    }
  }

  /** The masked test and the priority search agree, and the search finds the pending
      interrupt with the lowest bit. */
  lemma FirstPendingIsFirst(s: Irqs)
    ensures AnyPending(s) <==> FirstPending(s).Some?
    ensures FirstPending(s).Some? ==>
      var i := FirstPending(s).value;
      IsPending(s, i) && forall j :: IsPending(s, j) ==> BitIndex(i) <= BitIndex(j)
  {
    FirstFromIsFirst(s, 0);
    hide FirstFrom, BitIndex;
    if AnyPending(s) {
      var j :| j in s.enabled * s.requested;
      assert IsPending(s, j);
    }
    if FirstPending(s).Some? {
      assert FirstPending(s).value in s.enabled * s.requested;
    }
  }

  function Mask(i: Irq): bv8 {
    match i case VBlankIrq => 1 case LcdIrq => 2 case TimerIrq => 4 case SerialIrq => 8 case JoypadIrq => 16
  }

  /** The interrupts whose bit is set. */
  ghost function SetOf(flags: bv8): set<Irq> {
    set i: Irq | flags & Mask(i) == Mask(i)
  }

  lemma SetBit(flags: bv8, i: Irq)
    ensures SetOf(flags | Mask(i)) == SetOf(flags) + {i}
  {
    forall j: Irq ensures j in SetOf(flags | Mask(i)) <==> j in SetOf(flags) + {i} {
      match i { case VBlankIrq => case LcdIrq => case TimerIrq => case SerialIrq => case JoypadIrq => }
    }
  }

  lemma ClearBit(flags: bv8, i: Irq)
    ensures SetOf(flags & !Mask(i)) == SetOf(flags) - {i}
  {
    forall j: Irq ensures j in SetOf(flags & !Mask(i)) <==> j in SetOf(flags) - {i} {
      match i { case VBlankIrq => case LcdIrq => case TimerIrq => case SerialIrq => case JoypadIrq => }
    }
  }

  /** The masked test of the two registers is whether any interrupt is both enabled and requested. */
  lemma MaskedTest(a: bv8, b: bv8)
    ensures (a & 0x1F) & (b & 0x1F) != 0 <==> SetOf(a) * SetOf(b) != {}
  {
    if (a & 0x1F) & (b & 0x1F) != 0 {
      assert (a & 1 == 1 && b & 1 == 1) || (a & 2 == 2 && b & 2 == 2) || (a & 4 == 4 && b & 4 == 4)
        || (a & 8 == 8 && b & 8 == 8) || (a & 16 == 16 && b & 16 == 16);
      var i := if a & 1 == 1 && b & 1 == 1 then VBlankIrq else if a & 2 == 2 && b & 2 == 2 then LcdIrq
        else if a & 4 == 4 && b & 4 == 4 then TimerIrq else if a & 8 == 8 && b & 8 == 8 then SerialIrq else JoypadIrq;
      assert i in SetOf(a) * SetOf(b);
    }
    if SetOf(a) * SetOf(b) != {} {
      var i :| i in SetOf(a) * SetOf(b);
    }
  }

  /** The flag registers as the program has them, bit by bit. */
  class InterruptController {
    var enableFlags: bv8
    var requestFlags: bv8

    constructor ()
      ensures State() == Irqs({}, {}, 0)
    {
      enableFlags, requestFlags := 0, 0;
    }

    ghost function State(): Irqs
      reads this
    {
      Irqs(SetOf(enableFlags), SetOf(requestFlags), 0)
    }

    method Request(i: Irq)
      modifies this`requestFlags
      ensures State() == old(State()).(requested := old(State()).requested + {i})
    {
      hide SetOf, Mask;
      SetBit(requestFlags, i);
      requestFlags := requestFlags | Mask(i);
    }

    method ClearRequest(i: Irq)
      modifies this`requestFlags
      ensures State() == old(State()).(requested := old(State()).requested - {i})
    {
      hide SetOf, Mask;
      ClearBit(requestFlags, i);
      requestFlags := requestFlags & !Mask(i);
    }

    method Enable(i: Irq)
      modifies this`enableFlags
      ensures State() == old(State()).(enabled := old(State()).enabled + {i})
    {
      hide SetOf, Mask;
      SetBit(enableFlags, i);
      enableFlags := enableFlags | Mask(i);
    }

    method Disable(i: Irq)
      modifies this`enableFlags
      ensures State() == old(State()).(enabled := old(State()).enabled - {i})
    {
      hide SetOf, Mask;
      ClearBit(enableFlags, i);
      enableFlags := enableFlags & !Mask(i);
    }

    method IsAnyPending() returns (pending: bool)
      ensures pending == AnyPending(State())
    {
      hide SetOf;
      MaskedTest(enableFlags, requestFlags);
      pending := (enableFlags & 0x1F) & (requestFlags & 0x1F) != 0;
    }

    method GetFirstPending() returns (first: Option<Irq>)
      ensures first == FirstPending(State())
    {
      var k := 0;
      while k < 5
        invariant 0 <= k <= 5
        invariant FirstFrom(State(), k) == FirstPending(State())
      {
        var i := BY_PRIORITY[k];
        if enableFlags & Mask(i) == Mask(i) && requestFlags & Mask(i) == Mask(i) {
          return Some(i);
        }
        k := k + 1;
      }
      first := None;
    }
  }
}
