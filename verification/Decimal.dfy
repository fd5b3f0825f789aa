/** ADC, SBC and DAA, and what a program gets by chaining them over packed decimal numbers. */
module Decimal {
  import opened Common

  /** The accumulator and the flags. */
  datatype Alu = Alu(a: byte, z: bool, n: bool, h: bool, c: bool)

  function Carry(s: Alu): nat {
    if s.c then 1 else 0
  }

  function Adc(s: Alu, r8: byte): Alu {
    var result := s.a + r8 + Carry(s);
    Alu(Byte(result), Byte(result) == 0, false, s.a % 0x10 + r8 % 0x10 + Carry(s) > 0xF, result > 0xFF)
  }

  /** The difference is formed in 16 bits, so a borrow shows up above the low byte. */
  function Sbc(s: Alu, r8: byte): Alu {
    var result := Word(s.a - r8 - Carry(s));
    Alu(Byte(result), Byte(result) == 0, true, s.a % 0x10 < r8 % 0x10 + Carry(s), result > 0xFF)
  }

  function Daa(s: Alu): Alu {
    var low := (!s.n && s.a % 0x10 > 9) || s.h;
    var high := (!s.n && s.a > 0x99) || s.c;
    var adjustment := (if low then 0x06 else 0) + (if high then 0x60 else 0);
    var a := Byte(if s.n then s.a - adjustment else s.a + adjustment);
    Alu(a, a == 0, s.n, false, high)
  }

  // ---------------------------------------------------------------- one byte

  ghost predicate IsBcd(b: byte) {
    b / 0x10 <= 9 && b % 0x10 <= 9
  }

  /** The number 0..99 a packed decimal byte stands for. */
  ghost function Value(b: byte): nat {
    b / 0x10 * 10 + b % 0x10
  }

  /** A byte's two hexadecimal digits, from any way of writing it. */
  lemma Nibbles(b: int, hi: int, lo: int)
    requires b == 0x10 * hi + lo && 0 <= lo < 0x10
    ensures b / 0x10 == hi && b % 0x10 == lo
  {
  }

  lemma Wrapped(v: int, b: int, q: int)
    requires v == b + 0x100 * q && 0 <= b < 0x100
    ensures Byte(v) == b
  {
  }

  /** The sum before adjustment: `l` and `hh` are the sums of the low and of the high digits. */
  lemma RawSum(s: Alu, y: byte)
    requires IsBcd(s.a) && IsBcd(y)
    ensures var t := Adc(s, y);
      var l, hh := s.a % 0x10 + y % 0x10 + Carry(s), s.a / 0x10 + y / 0x10;
      var up := if l > 15 then 1 else 0;
      && t.h == (l > 15) && t.c == (hh + up > 15) && !t.n
      && t.a % 0x10 == l - 16 * up && t.a / 0x10 == hh + up - (if t.c then 16 else 0)
  {
    var l, hh := s.a % 0x10 + y % 0x10 + Carry(s), s.a / 0x10 + y / 0x10;
    var up := if l > 15 then 1 else 0;
    var over := if hh + up > 15 then 1 else 0;
    var sum := s.a + y + Carry(s);
    assert sum == 0x10 * (hh + up) + (l - 16 * up);
    Wrapped(sum, 0x10 * (hh + up - 16 * over) + (l - 16 * up), over);
    Nibbles(Adc(s, y).a, hh + up - 16 * over, l - 16 * up);
  }

  lemma AddDigits(s: Alu, y: byte)
    requires IsBcd(s.a) && IsBcd(y)
    ensures var r := Daa(Adc(s, y));
      IsBcd(r.a) && Value(r.a) + 100 * Carry(r) == Value(s.a) + Value(y) + Carry(s)
  {
    RawSum(s, y);
    hide Adc, Daa;
    var l, hh := s.a % 0x10 + y % 0x10 + Carry(s), s.a / 0x10 + y / 0x10;
    AdjustedSum(Adc(s, y), l, hh);
    var up := if l > 9 then 1 else 0;
    var over := if hh + up > 9 then 1 else 0;
    Nibbles(Daa(Adc(s, y)).a, hh + up - 10 * over, l - 10 * up);
  }

  /** After an addition, DAA turns hexadecimal digit sums into decimal digits with a carry. */
  lemma AdjustedSum(t: Alu, l: nat, hh: nat)
    requires l <= 19 && hh <= 18 && !t.n
    requires var up := if l > 15 then 1 else 0;
      && t.h == (l > 15) && t.c == (hh + up > 15)
      && t.a % 0x10 == l - 16 * up && t.a / 0x10 == hh + up - (if t.c then 16 else 0)
    ensures var up := if l > 9 then 1 else 0;
      var over := if hh + up > 9 then 1 else 0;
      Daa(t).a == 0x10 * (hh + up - 10 * over) + (l - 10 * up) && Daa(t).c == (over == 1)
  {
    AdjustNeeded(t, l, hh);
    var up := if l > 9 then 1 else 0;
    var over := if hh + up > 9 then 1 else 0;
    var adjusted := t.a + (if up == 1 then 0x06 else 0) + (if over == 1 then 0x60 else 0);
    assert t.a == 0x10 * (t.a / 0x10) + t.a % 0x10;
    Wrapped(adjusted, 0x10 * (hh + up - 10 * over) + (l - 10 * up), over - Carry(t));
    hide Byte;
  }

  /** When DAA corrects each digit after an addition. */
  lemma AdjustNeeded(t: Alu, l: nat, hh: nat)
    requires l <= 19 && hh <= 18 && !t.n
    requires var up := if l > 15 then 1 else 0;
      && t.h == (l > 15) && t.c == (hh + up > 15)
      && t.a % 0x10 == l - 16 * up && t.a / 0x10 == hh + up - (if t.c then 16 else 0)
    ensures (t.a % 0x10 > 9 || t.h) <==> l > 9
    ensures (t.a > 0x99 || t.c) <==> hh + (if l > 9 then 1 else 0) > 9
  {
    assert t.a == 0x10 * (t.a / 0x10) + t.a % 0x10;
  }

  /** The difference before adjustment, digit by digit. */
  lemma RawDifference(s: Alu, y: byte)
    requires IsBcd(s.a) && IsBcd(y)
    ensures var t := Sbc(s, y);
      var l, hh := s.a % 0x10 - y % 0x10 - Carry(s), s.a / 0x10 - y / 0x10;
      var down := if l < 0 then 1 else 0;
      && t.h == (l < 0) && t.c == (hh - down < 0) && t.n
      && t.a % 0x10 == l + 16 * down && t.a / 0x10 == hh - down + (if t.c then 16 else 0)
  {
    var l, hh := s.a % 0x10 - y % 0x10 - Carry(s), s.a / 0x10 - y / 0x10;
    var down := if l < 0 then 1 else 0;
    var under := if hh - down < 0 then 1 else 0;
    var difference := s.a - y - Carry(s);
    assert difference == 0x10 * (hh - down) + (l + 16 * down);
    var b := 0x10 * (hh - down + 16 * under) + (l + 16 * down);
    assert Word(difference) == if under == 1 then difference + 0x1_0000 else difference;
    Wrapped(Word(difference), b, if under == 1 then 255 else 0);
    Nibbles(b, hh - down + 16 * under, l + 16 * down);
  }

  lemma SubtractDigits(s: Alu, y: byte)
    requires IsBcd(s.a) && IsBcd(y)
    ensures var r := Daa(Sbc(s, y));
      IsBcd(r.a) && Value(r.a) == Value(s.a) - Value(y) - Carry(s) + 100 * Carry(r)
  {
    var t := Sbc(s, y);
    RawDifference(s, y);
    var l, hh := s.a % 0x10 - y % 0x10 - Carry(s), s.a / 0x10 - y / 0x10;
    hide Sbc, Byte;
    var down := if l < 0 then 1 else 0;
    var under := if hh - down < 0 then 1 else 0;
    var lo, hi := l + 10 * down, hh - down + 10 * under;
    var adjusted := t.a - (if down == 1 then 0x06 else 0) - (if under == 1 then 0x60 else 0);
    assert t.a == 0x10 * (t.a / 0x10) + t.a % 0x10;
    assert adjusted == 0x10 * hi + lo;
    Wrapped(adjusted, 0x10 * hi + lo, 0);
    Nibbles(0x10 * hi + lo, hi, lo);
    assert Daa(t).a == 0x10 * hi + lo && Daa(t).c == (under == 1);
    hide Daa;
  }

  // ---------------------------------------------------------------- many bytes

  ghost predicate AllBcd(xs: seq<byte>) {
    forall i :: 0 <= i < |xs| ==> IsBcd(xs[i])
  }

  /** The number a little-endian sequence of packed decimal bytes stands for. */
  ghost function Number(xs: seq<byte>): nat {
    if xs == [] then 0 else Value(xs[0]) + 100 * Number(xs[1..])
  }

  ghost function Hundreds(n: nat): nat {
    if n == 0 then 1 else 100 * Hundreds(n - 1)
  }

  datatype Operation = Add | Subtract

  /** Load a byte, combine it with the other operand's, adjust, store; least significant
      byte first, the carry flag running through. Loads and stores leave the flags alone. */
  function Chain(op: Operation, s: Alu, xs: seq<byte>, ys: seq<byte>): (seq<byte>, Alu)
    requires |xs| == |ys|
    decreases |xs|
  {
    if xs == [] then ([], s)
    else
      var loaded := s.(a := xs[0]);
      var t := Daa(match op case Add => Adc(loaded, ys[0]) case Subtract => Sbc(loaded, ys[0]));
      var (rest, last) := Chain(op, t, xs[1..], ys[1..]);
      ([t.a] + rest, last)
  }

  /** Multi-byte decimal addition: digits and final carry are exactly those of the decimal sum. */
  lemma {:induction false} ChainAdds(s: Alu, xs: seq<byte>, ys: seq<byte>)
    requires |xs| == |ys| && AllBcd(xs) && AllBcd(ys)
    ensures var (rs, t) := Chain(Add, s, xs, ys);
      && |rs| == |xs| && AllBcd(rs)
      && Number(rs) + Hundreds(|xs|) * Carry(t) == Number(xs) + Number(ys) + Carry(s)
    decreases |xs|
  {
    if xs != [] {
      AddDigits(s.(a := xs[0]), ys[0]);
      var t := Daa(Adc(s.(a := xs[0]), ys[0]));
      assert AllBcd(xs[1..]) && AllBcd(ys[1..]);
      hide Adc, Daa, IsBcd, Value, Carry;
      ChainAdds(t, xs[1..], ys[1..]);
      var (rest, last) := Chain(Add, t, xs[1..], ys[1..]);
      Unroll([t.a] + rest);
      assert ([t.a] + rest)[1..] == rest;
      Scale(|xs|, Carry(last));
    }
  }

  /** Multi-byte decimal subtraction: the digits are the difference modulo 100^n, and the
      final borrow says whether it was negative. */
  lemma {:induction false} ChainSubtracts(s: Alu, xs: seq<byte>, ys: seq<byte>)
    requires |xs| == |ys| && AllBcd(xs) && AllBcd(ys)
    ensures var (rs, t) := Chain(Subtract, s, xs, ys);
      && |rs| == |xs| && AllBcd(rs)
      && Number(rs) == Number(xs) - Number(ys) - Carry(s) + Hundreds(|xs|) * Carry(t)
    decreases |xs|
  {
    if xs != [] {
      SubtractDigits(s.(a := xs[0]), ys[0]);
      var t := Daa(Sbc(s.(a := xs[0]), ys[0]));
      assert AllBcd(xs[1..]) && AllBcd(ys[1..]);
      hide Sbc, Daa, IsBcd, Value, Carry;
      ChainSubtracts(t, xs[1..], ys[1..]);
      var (rest, last) := Chain(Subtract, t, xs[1..], ys[1..]);
      Unroll([t.a] + rest);
      assert ([t.a] + rest)[1..] == rest;
      Scale(|xs|, Carry(last));
    }
  }

  lemma Scale(n: nat, c: nat)
    requires n > 0
    ensures Hundreds(n) * c == 100 * (Hundreds(n - 1) * c)
  {
  }

  lemma Unroll(rs: seq<byte>)
    requires rs != []
    ensures Number(rs) == Value(rs[0]) + 100 * Number(rs[1..])
  {
  }

  lemma {:induction false} NumberBound(xs: seq<byte>)
    requires AllBcd(xs)
    ensures Number(xs) < Hundreds(|xs|)
  {
    if xs != [] {
      NumberBound(xs[1..]);
    }
  }

  /** Without an incoming carry, the final flag is exactly overflow of the sum, or
      negativity of the difference. */
  lemma ChainCarry(s: Alu, xs: seq<byte>, ys: seq<byte>)
    requires |xs| == |ys| && AllBcd(xs) && AllBcd(ys)
    ensures Chain(Add, s, xs, ys).1.c <==> Number(xs) + Number(ys) + Carry(s) >= Hundreds(|xs|)
    ensures Chain(Subtract, s, xs, ys).1.c <==> Number(xs) < Number(ys) + Carry(s)
  {
    ChainAdds(s, xs, ys);
    ChainSubtracts(s, xs, ys);
    NumberBound(Chain(Add, s, xs, ys).0);
    NumberBound(Chain(Subtract, s, xs, ys).0);
    hide Chain, Number, Hundreds, AllBcd;
  }

  // ---------------------------------------------------------------- the instructions

  class Registers {
    var a: byte
    var z: bool
    var n: bool
    var h: bool
    var c: bool

    ghost function State(): Alu
      reads this
    {
      Alu(a, z, n, h, c)
    }

    method AdcA(r8: byte)
      modifies this
      ensures State() == Adc(old(State()), r8)
    {
      var previous := a;
      var carry := if c then 1 else 0;
      var result := previous + r8 + carry;
      a := Byte(result);
      z := a == 0;
      n := false;
      h := previous % 0x10 + r8 % 0x10 + carry > 0xF;
      c := result > 0xFF;
    }

    method SbcA(r8: byte)
      modifies this
      ensures State() == Sbc(old(State()), r8)
    {
      var previous := a;
      var carry := if c then 1 else 0;
      var result := Word(previous - r8 - carry);
      a := Byte(result);
      z := a == 0;
      n := true;
      h := previous % 0x10 < r8 % 0x10 + carry;
      c := result > 0xFF;
    }

    method DecimalAdjust()
      modifies this
      ensures State() == Daa(old(State()))
    {
      var shouldCarry := false;
      var adjustment := 0;
      if (!n && a % 0x10 > 0x09) || h {
        adjustment := 0x06;
      }
      if (!n && a > 0x99) || c {
        adjustment := adjustment + 0x60;
        shouldCarry := true;
      }
      a := Byte(if n then a - adjustment else a + adjustment);
      z := a == 0;
      h := false;
      c := shouldCarry;
    }
  }
}
