/** Machine-level types shared by every component of the emulator model. */
module Common {
  type byte = b: nat | b < 0x100
  type word = w: nat | w < 0x1_0000

  /** The 64K address space, as a plain array of bytes: reads have no side effects. */
  type Memory = m: seq<byte> | |m| == 0x1_0000 witness seq(0x1_0000, i => 0)

  datatype Option<+T> = None | Some(value: T) {
    function GetOr(default: T): T {
      match this
      case Some(v) => v
      case None => default
    }
  }

  function Min(a: nat, b: nat): nat {
    if a < b then a else b
  }

  /** Bit `i` of a byte, as 0 or 1. */
  function Bit(b: byte, i: nat): nat
    requires i < 8
  {
    b / [1, 2, 4, 8, 16, 32, 64, 128][i] % 2
  }

  /** An 8-bit result truncated to its low byte; negative values wrap as in unsigned arithmetic. */
  function Byte(v: int): byte {
    v % 0x100
  }

  /** A 16-bit result truncated to its low word. */
  function Word(v: int): word {
    v % 0x1_0000
  }

  /** The largest batch an unsigned 32-bit count can announce. */
  const UNBOUNDED := 0xFFFF_FFFF

  function Pow2(k: nat): (p: nat)
    ensures p >= 1
  {
    if k == 0 then 1 else 2 * Pow2(k - 1)
  }

  function Sum(ns: seq<nat>): nat {
    if ns == [] then 0 else Sum(ns[..|ns| - 1]) + ns[|ns| - 1]
  }

  // ---------------------------------------------------------------- arithmetic

  lemma Distribute(a: int, b: int, d: int)
    ensures (a + b) * d == a * d + b * d
  {
  }

  lemma AtLeastOnce(k: int, d: nat)
    requires k >= 1
    ensures k * d >= d
  {
    assert k * d - d == (k - 1) * d;
  }

  /** Quotient and remainder are unique. */
  lemma Quotient(m: int, d: nat, q: int, r: int)
    requires d >= 1 && 0 <= r < d && m == q * d + r
    ensures m / d == q && m % d == r
  {
    var q', r' := m / d, m % d;
    assert m == q' * d + r';
    assert (q' - q) * d == r - r';
    if q' > q {
      AtLeastOnce(q' - q, d);
    } else if q' < q {
      assert (q - q') * d == r' - r;
      AtLeastOnce(q - q', d);
    }
  }
}
