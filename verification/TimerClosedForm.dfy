/** When the counter overflows: the exact tick of every overflow, reload and interrupt. */
module TimerClosedForm {
  import opened Common
  import opened Timer

  /** The counter steps between two overflows once the first has happened. */
  function Span(modulo: byte): nat {
    0x100 - modulo
  }

  /** The tick of the `k`-th overflow. */
  function OverflowTick(c: Clock, modulo: byte, k: nat): nat
    requires k >= 1
  {
    Period(c) * (0x100 + (k - 1) * Span(modulo))
  }

  /** A zeroed, running timer. */
  function Started(c: Clock, modulo: byte): Timer {
    Timer(0, 0, modulo, true, c, false, 0, false, 0, 0)
  }

  /** Expected state at tick `n`, `e` whole periods in, before the first overflow. */
  ghost function Rising(c: Clock, modulo: byte, n: nat, e: nat): Timer
    requires e < 0x100
  {
    Timer(Word(n), e, modulo, true, c, false, 0, false, 0, 0)
  }

  /** Expected state at tick `n`, `r` periods and `l` ticks after the `k`-th overflow. */
  ghost function After(c: Clock, modulo: byte, n: nat, k: nat, r: nat, l: nat): Timer
    requires k >= 1 && r < Span(modulo)
  {
    if r == 0 && l < RELOAD_DELAY then
      Timer(Word(n), 0, modulo, true, c, true, RELOAD_DELAY - l, false, 0, k - 1)
    else
      var left := if r == 0 && l < 2 * RELOAD_DELAY then 2 * RELOAD_DELAY - l else 0;
      Timer(Word(n), modulo + r, modulo, true, c, false, 0, left > 0, left, k)
  }

  /** Tick `n` is `l` ticks past the `e`-th edge of the selected bit. */
  ghost predicate OnGrid(c: Clock, n: nat, e: nat, l: nat) {
    l < Period(c) && n == Period(c) * e + l
  }

  /** The tick after one on the grid, and what the divider shows. */
  lemma GridStep(c: Clock, n: nat, e: nat, l: nat)
    requires OnGrid(c, n, e, l)
    ensures l < Period(c) && Word(n) % Period(c) == l
    ensures l + 1 < Period(c) ==> OnGrid(c, n + 1, e, l + 1)
    ensures l + 1 == Period(c) ==> OnGrid(c, n + 1, e + 1, 0)
  {
    WordMod(n, c);
    ModShift(l, Period(c), e);
    ClockBounds(c);
    hide Period, Word;
    Quotient(l, Period(c), 0, l);
  }

  lemma NextEdge(p: nat, e: nat)
    ensures e == 0 ==> p * e == 0
    ensures e > 0 ==> p * e == p * (e - 1) + p
  {
  }

  lemma GridBack(c: Clock, n: nat, e: nat, l: nat)
    requires OnGrid(c, n, e, l) && n > 0
    ensures l > 0 ==> OnGrid(c, n - 1, e, l - 1)
    ensures l == 0 ==> e > 0 && OnGrid(c, n - 1, e - 1, Period(c) - 1)
  {
    ClockBounds(c);
    hide Period;
    NextEdge(Period(c), e);
  }

  lemma NextWord(n: nat)
    ensures Word(Word(n) + 1) == Word(n + 1)
  {
  }

  lemma RisingStep(c: Clock, modulo: byte, n: nat, e: nat, l: nat)
    requires e < 0x100 && OnGrid(c, n, e, l)
    ensures Advance(Rising(c, modulo, n, e), 1) ==
      if l + 1 < Period(c) then Rising(c, modulo, n + 1, e)
      else if e < 0xFF then Rising(c, modulo, n + 1, e + 1)
      else After(c, modulo, n + 1, 1, 0, 0)
  {
    hide Period, Word, OnGrid;
    GridStep(c, n, e, l);
    NextWord(n);
  }

  lemma AfterStep(c: Clock, modulo: byte, n: nat, k: nat, r: nat, l: nat)
    requires k >= 1 && r < Span(modulo) && l < Period(c) && Word(n) % Period(c) == l
    ensures Advance(After(c, modulo, n, k, r, l), 1) ==
      if l + 1 < Period(c) then After(c, modulo, n + 1, k, r, l + 1)
      else if r + 1 < Span(modulo) then After(c, modulo, n + 1, k, r + 1, 0)
      else After(c, modulo, n + 1, k + 1, 0, 0)
  {
    ClockBounds(c);
    NextWord(n);
    hide Period, Word;
  }

  lemma {:induction false} RisingTicks(c: Clock, modulo: byte, n: nat, e: nat, l: nat)
    requires e < 0x100 && OnGrid(c, n, e, l)
    ensures Ticks(Started(c, modulo), n) == Rising(c, modulo, n, e)
    decreases n
  {
    hide OnGrid, Advance, Period, Word;
    ClockBounds(c);
    GridStep(c, n, e, l);
    if n > 0 {
      GridBack(c, n, e, l);
      var e', l' := if l > 0 then e else e - 1, if l > 0 then l - 1 else Period(c) - 1;
      RisingTicks(c, modulo, n - 1, e', l');
      RisingStep(c, modulo, n - 1, e', l');
    } else {
      GridStart(c, e, l);
      StartsRising(c, modulo);
    }
  }

  lemma StartsRising(c: Clock, modulo: byte)
    ensures Ticks(Started(c, modulo), 0) == Rising(c, modulo, 0, 0)
  {
  }

  lemma GridStart(c: Clock, e: nat, l: nat)
    requires OnGrid(c, 0, e, l)
    ensures e == 0 && l == 0
  {
    ClockBounds(c);
    hide Period;
    assert e > 0 ==> Period(c) * e >= Period(c);
  }

  /** The edges seen when `r` steps have followed the `k`-th overflow. */
  function Edges(modulo: byte, k: nat, r: nat): nat
    requires k >= 1
  {
    0x100 + (k - 1) * Span(modulo) + r
  }

  lemma EdgesBack(modulo: byte, k: nat)
    requires k > 1
    ensures Edges(modulo, k, 0) - 1 == Edges(modulo, k - 1, Span(modulo) - 1)
  {
    assert (k - 1) * Span(modulo) == (k - 2) * Span(modulo) + Span(modulo);
  }

  lemma {:induction false} AfterTicks(c: Clock, modulo: byte, n: nat, k: nat, r: nat, l: nat)
    requires k >= 1 && r < Span(modulo) && OnGrid(c, n, Edges(modulo, k, r), l)
    ensures Ticks(Started(c, modulo), n) == After(c, modulo, n, k, r, l)
    decreases n, 0
  {
    NotYet(c, modulo, n, k, r, l);
    var last := Period(c) - 1;
    GridBack(c, n, Edges(modulo, k, r), l);
    if l > 0 {
      AfterTicksStep(c, modulo, n, k, r, l - 1);
    } else if r > 0 {
      AfterTicksStep(c, modulo, n, k, r - 1, last);
    } else if k > 1 {
      EdgesBack(modulo, k);
      AfterTicksStep(c, modulo, n, k - 1, Span(modulo) - 1, last);
    } else {
      RisingTicks(c, modulo, n - 1, 0xFF, last);
      RisingStep(c, modulo, n - 1, 0xFF, last);
    }
    hide *;
  }

  lemma {:induction false} AfterTicksStep(c: Clock, modulo: byte, n: nat, k: nat, r: nat, l: nat)
    requires n > 0 && k >= 1 && r < Span(modulo) && OnGrid(c, n - 1, Edges(modulo, k, r), l)
    ensures Ticks(Started(c, modulo), n) == Advance(After(c, modulo, n - 1, k, r, l), 1)
    ensures l < Period(c) && Word(n - 1) % Period(c) == l
    ensures Advance(After(c, modulo, n - 1, k, r, l), 1) ==
      if l + 1 < Period(c) then After(c, modulo, n, k, r, l + 1)
      else if r + 1 < Span(modulo) then After(c, modulo, n, k, r + 1, 0)
      else After(c, modulo, n, k + 1, 0, 0)
    decreases n - 1, 1
  {
    AfterTicks(c, modulo, n - 1, k, r, l);
    GridStep(c, n - 1, Edges(modulo, k, r), l);
    hide Advance, Edges, Period, Word;
    AfterStep(c, modulo, n - 1, k, r, l);
  }

  lemma NotYet(c: Clock, modulo: byte, n: nat, k: nat, r: nat, l: nat)
    requires k >= 1 && r < Span(modulo) && OnGrid(c, n, Edges(modulo, k, r), l)
    ensures n > 0
  {
    ClockBounds(c);
    var e := Edges(modulo, k, r);
    assert e > 0 by {
      assert (k - 1) * Span(modulo) >= 0;
    }
    hide Period, Edges;
    assert e > 0 ==> Period(c) * e >= Period(c);
  }

  /** Until the first overflow the counter counts whole periods and nothing is requested. */
  lemma BeforeFirstOverflow(c: Clock, modulo: byte, n: nat)
    requires n < OverflowTick(c, modulo, 1)
    ensures var t := Ticks(Started(c, modulo), n);
      !t.overflow && t.counter == n / Period(c) && t.requests == 0
  {
    PeriodDivision(c, n, 0x100);
    hide Period, Ticks;
    RisingTicks(c, modulo, n, n / Period(c), n % Period(c));
  }

  lemma PeriodDivision(c: Clock, n: nat, b: nat)
    requires n < Period(c) * b
    ensures OnGrid(c, n, n / Period(c), n % Period(c)) && n / Period(c) < b
  {
    ClockBounds(c);
    hide Period;
    var q := n / Period(c);
    assert n == Period(c) * q + n % Period(c);
    assert q >= b ==> Period(c) * q >= Period(c) * b;
  }

  /** The timer in closed form. The k-th overflow happens at tick P * (256 + (k - 1) * (256 - m));
      `d` ticks later, up to the next one, the counter reads 0 for exactly four ticks and then
      m plus the whole periods elapsed, and the k-th interrupt is requested at the fourth tick,
      for every k and straight across divider wrap-around. */
  lemma ClosedForm(c: Clock, modulo: byte, k: nat, d: nat)
    requires k >= 1
    requires OverflowTick(c, modulo, k) + d < OverflowTick(c, modulo, k + 1)
    ensures var t := Ticks(Started(c, modulo), OverflowTick(c, modulo, k) + d);
      && (t.overflow <==> d < RELOAD_DELAY)
      && t.counter == (if d < RELOAD_DELAY then 0 else modulo + d / Period(c))
      && t.requests == (if d < RELOAD_DELAY then k - 1 else k)
      && t.div == Word(OverflowTick(c, modulo, k) + d)
  {
    hide Ticks, Word, Period, OverflowTick, OnGrid;
    var n := OverflowTick(c, modulo, k) + d;
    var r, l := d / Period(c), d % Period(c);
    SpanTicks(c, modulo, k);
    PeriodDivision(c, d, Span(modulo));
    OnOverflowGrid(c, modulo, k, d, r, l);
    AfterTicks(c, modulo, n, k, r, l);
    Elapsed(c, d, r, l);
  }

  /** `r` periods and `l` ticks after the `k`-th overflow is that many edges from the start. */
  lemma OnOverflowGrid(c: Clock, modulo: byte, k: nat, d: nat, r: nat, l: nat)
    requires k >= 1 && OnGrid(c, d, r, l)
    ensures OnGrid(c, OverflowTick(c, modulo, k) + d, Edges(modulo, k, r), l)
  {
    SpanTicks(c, modulo, k);
    Distribute(Edges(modulo, k, 0), r, Period(c));
    assert Edges(modulo, k, r) == Edges(modulo, k, 0) + r;
    hide Period, Edges, OverflowTick;
  }

  lemma Elapsed(c: Clock, d: nat, r: nat, l: nat)
    requires OnGrid(c, d, r, l)
    ensures r == 0 ==> l == d
    ensures r > 0 ==> d >= 2 * RELOAD_DELAY
  {
    ClockBounds(c);
    hide Period;
    assert r > 0 ==> Period(c) * r >= Period(c);
  }

  lemma SpanTicks(c: Clock, modulo: byte, k: nat)
    requires k >= 1
    ensures OverflowTick(c, modulo, k + 1) == OverflowTick(c, modulo, k) + Period(c) * Span(modulo)
    ensures OverflowTick(c, modulo, k) == Period(c) * Edges(modulo, k, 0)
  {
    assert k * Span(modulo) == (k - 1) * Span(modulo) + Span(modulo);
    Distribute(0x100 + (k - 1) * Span(modulo), Span(modulo), Period(c));
  }
}
